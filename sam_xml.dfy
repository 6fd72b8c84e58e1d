/**
 * sam_xml.cpp: reading SAM scenery descriptions.  expat hands each start
 * tag with its attributes to `start_element`, which fills jetways, library
 * jetway sets, datarefs with their animation tables, object instances and
 * GUI checkboxes; `end_element` leaves the enclosing sections.
 * `SceneryPacks` reads `scenery_packs.ini`, and `collect_sam_xml` keeps the
 * non-empty sceneries and computes their bounding boxes.
 *
 * The XML tokenizer, `atoi`/`atof` (parameters here), the apt.dat reader
 * and file access are not modelled: a parsed scenery is an input.
 */
module SamXml {
  import opened Wrappers
  import opened Strings
  import opened OpenSamH

  /** The attribute list expat passes: name/value pairs in document order. */
  type Attrs = seq<(string, string)>

  /** Capacity of an animation table (`DRF_MAX_ANIM`). */
  const DrfMaxAnim := 10
  /** Highest library jetway id (`MAX_SAM3_LIB_JW`). */
  const MaxSam3LibJw := 27

  // ---------------------------------------------------------------------
  // Attribute and name lookup
  // ---------------------------------------------------------------------

  /** The value of the first attribute called name. */
  function AttrOf(attrs: Attrs, name: string): Option<string>
  {
    if attrs == [] then None
    else if attrs[0].0 == name then Some(attrs[0].1)
    else AttrOf(attrs[1..], name)
  }

  /** The value found is that of the first pair with the name; none is found only when no pair has it. */
  lemma {:induction false} AttrOfFirst(attrs: Attrs, name: string)
    ensures AttrOf(attrs, name).None? <==> forall i :: 0 <= i < |attrs| ==> attrs[i].0 != name
    ensures AttrOf(attrs, name).Some? ==>
      exists i :: 0 <= i < |attrs| && attrs[i] == (name, AttrOf(attrs, name).value) && forall j :: 0 <= j < i ==> attrs[j].0 != name
  {
    if attrs != [] && attrs[0].0 != name {
      AttrOfFirst(attrs[1..], name);
      if AttrOf(attrs, name).Some? {
        var i :| 0 <= i < |attrs[1..]| && attrs[1..][i] == (name, AttrOf(attrs, name).value)
          && forall j :: 0 <= j < i ==> attrs[1..][j].0 != name;
        assert attrs[i + 1] == (name, AttrOf(attrs, name).value);
      }
    }
  }

  /** `lookup_attr`: a search over the pairs that stops at the first match. */
  method LookupAttr(attrs: Attrs, name: string) returns (r: Option<string>)
    ensures r == AttrOf(attrs, name)
  {
    var i := 0;
    while i < |attrs|
      invariant i <= |attrs|
      invariant forall j :: 0 <= j < i ==> attrs[j].0 != name
      invariant AttrOf(attrs[i..], name) == AttrOf(attrs, name)
    {
      assert attrs[i..][1..] == attrs[i + 1..];
      if attrs[i].0 == name {
        return Some(attrs[i].1);
      }
      i := i + 1;
    }
    return None;
  }

  /** The index of the first entry equal to name, or -1. */
  function FirstIndex(names: seq<string>, name: string): (r: int)
    ensures -1 <= r < |names|
    ensures r == -1 <==> name !in names
    ensures r >= 0 ==> names[r] == name && name !in names[..r]
  {
    if names == [] then -1
    else if names[0] == name then 0
    else
      var k := FirstIndex(names[1..], name);
      assert names[1..] == names[1..][..|names| - 1];
      if k == -1 then -1
      else
        assert names[..k + 1] == [names[0]] + names[1..][..k];
        k + 1
  }

  /** `lookup_drf` / `lookup_obj`: a search loop returning the first matching index or -1. */
  method LookupName(names: seq<string>, name: string) returns (idx: int)
    ensures idx == FirstIndex(names, name)
  {
    var i := 0;
    while i < |names|
      invariant i <= |names|
      invariant name !in names[..i]
    {
      if names[i] == name {
        return i;
      }
      assert names[..i + 1] == names[..i] + [names[i]];
      i := i + 1;
    }
    assert names[..i] == names;
    return -1;
  }

  // ---------------------------------------------------------------------
  // Attribute macros and jetway records
  // ---------------------------------------------------------------------

  /**
   * `GET_STR_ATTR` into a zero-initialised field of `size` bytes: the value
   * cut to size-1 characters, or the field unchanged without the attribute.
   */
  function StrField(cur: string, val: Option<string>, size: nat): (r: string)
    requires size >= 1
    ensures val.None? ==> r == cur
    ensures val.Some? ==> r <= val.value && |r| == (if |val.value| < size then |val.value| else size - 1)
  {
    match val
    case None => cur
    case Some(v) => if |v| < size then v else v[..size - 1]
  }

  /** `GET_BOOL_ATTR`: the attribute is present and reads exactly "true". */
  predicate BoolAttr(attrs: Attrs, name: string)
  {
    AttrOf(attrs, name) == Some("true")
  }

  /** `GET_INT_ATTR` / `GET_FLOAT_ATTR` into a zero-initialised field. */
  function IntAttr(attrs: Attrs, name: string, atoi: string -> int): int
  {
    match AttrOf(attrs, name)
    case None => 0
    case Some(v) => atoi(v)
  }

  function FloatAttr(attrs: Attrs, name: string, atof: string -> real): real
  {
    match AttrOf(attrs, name)
    case None => 0.0
    case Some(v) => atof(v)
  }

  /** The numeric attributes of a jetway, in the order `get_jw_attrs` reads them. */
  const JwFloatNames: seq<string> := ["latitude", "longitude", "heading", "height", "wheelPos", "cabinPos",
    "cabinLength", "wheelDiameter", "wheelDistance", "minRot1", "maxRot1", "minRot2", "maxRot2",
    "minRot3", "maxRot3", "minExtent", "maxExtent", "minWheels", "maxWheels",
    "initialRot1", "initialRot2", "initialRot3", "initialExtent"]

  /** A jetway record: id, name, sound, door, and the numeric attributes by `JwFloatNames`. */
  datatype SamJwRec = SamJwRec(id: int, name: string, sound: string, door: int, nums: seq<real>)

  /** The door a `forDoorLocation` value designates. */
  function DoorOf(loc: Option<string>): (door: int)
    ensures 0 <= door <= 2
    ensures door == 1 <==> loc == Some("LF2")
    ensures door == 2 <==> loc == Some("LU1")
  {
    if loc == Some("LF2") then 1 else if loc == Some("LU1") then 2 else 0
  }

  /** `get_jw_attrs`: the record is zeroed, then filled from the attributes present. */
  function GetJwAttrs(attrs: Attrs, atoi: string -> int, atof: string -> real): (r: SamJwRec)
    ensures AttrOf(attrs, "id").None? ==> r.id == 0
    ensures AttrOf(attrs, "name").None? ==> r.name == ""
    ensures |r.name| < 40 && |r.sound| < 40
    ensures r.door == DoorOf(AttrOf(attrs, "forDoorLocation"))
    ensures |r.nums| == |JwFloatNames|
    ensures forall k :: 0 <= k < |JwFloatNames| && AttrOf(attrs, JwFloatNames[k]).None? ==> r.nums[k] == 0.0
  {
    SamJwRec(IntAttr(attrs, "id", atoi),
             StrField("", AttrOf(attrs, "name"), 40),
             StrField("", AttrOf(attrs, "sound"), 40),
             DoorOf(AttrOf(attrs, "forDoorLocation")),
             seq(|JwFloatNames|, k requires 0 <= k < |JwFloatNames| => FloatAttr(attrs, JwFloatNames[k], atof)))
  }

  // ---------------------------------------------------------------------
  // Animation tables
  // ---------------------------------------------------------------------

  /**
   * A dataref with its animation table: times t, values v and slopes s,
   * where s[j] is the slope of the segment (j-1, j).
   */
  datatype SamDrf = SamDrf(name: string, autoplay: bool, randomizePhase: bool, augmentWindSpeed: bool,
                           t: seq<real>, v: seq<real>, s: seq<real>)

  /** A well-formed table: parallel columns within capacity, no two consecutive equal times. */
  predicate TableOk(d: SamDrf)
  {
    |d.t| == |d.v| == |d.s| <= DrfMaxAnim && forall j :: 1 <= j < |d.t| ==> d.t[j] != d.t[j - 1]
  }

  /**
   * One `<animation t= v=>` entry as written: a time equal to the last one
   * overwrites its value, otherwise the entry is appended with the slope
   * from the previous entry.  For the first entry that slope reads v[-1]
   * and t[-1], memory outside the table, whose result is `outside`.
   */
  function AddEntry(d: SamDrf, t: real, v: real, outside: real): (r: SamDrf)
    requires TableOk(d) && |d.t| < DrfMaxAnim
    ensures TableOk(r) && r.name == d.name
    ensures |r.t| > 0 && r.t[|r.t| - 1] == t && r.v[|r.v| - 1] == v
    ensures |d.t| > 0 && t == d.t[|d.t| - 1] ==> r.t == d.t && r.s == d.s && r.v == d.v[|d.v| - 1 := v]
    ensures !(|d.t| > 0 && t == d.t[|d.t| - 1]) ==> r.t == d.t + [t] && r.v == d.v + [v] && r.s[..|d.s|] == d.s
    ensures !(|d.t| > 0 && t == d.t[|d.t| - 1]) && |d.t| > 0 ==>
      r.s[|d.t|] * (t - d.t[|d.t| - 1]) == v - d.v[|d.t| - 1]
  {
    var n := |d.t|;
    if n > 0 && t == d.t[n - 1] then d.(v := d.v[n - 1 := v])
    else
      var k := if n == 0 then outside else Slope(d.t[n - 1], d.v[n - 1], t, v);
      AppendKeepsTable(d, t, v, k);
      d.(t := d.t + [t], v := d.v + [v], s := d.s + [k])
  }

  /** Appending a time different from the last one keeps a table well formed. */
  lemma AppendKeepsTable(d: SamDrf, t: real, v: real, k: real)
    requires TableOk(d) && |d.t| < DrfMaxAnim && (|d.t| > 0 ==> t != d.t[|d.t| - 1])
    ensures TableOk(d.(t := d.t + [t], v := d.v + [v], s := d.s + [k]))
  {
  }

  /** The slope of the segment from (t0, v0) to (t1, v1). */
  function Slope(t0: real, v0: real, t1: real, v1: real): (k: real)
    requires t0 != t1
    ensures k * (t1 - t0) == v1 - v0
  {
    (v1 - v0) / (t1 - t0)
  }

  /** As written, the first slope of a table is whatever lies outside it. */
  lemma FirstSlopeReadsOutside(d: SamDrf, t: real, v: real, o1: real, o2: real)
    requires TableOk(d) && d.t == [] && o1 != o2
    ensures AddEntry(d, t, v, o1).s[0] != AddEntry(d, t, v, o2).s[0]
  {
  }

  /** `start_element` for `<animation>`, corrected: the first entry gets slope 0 and nothing outside the table is read. */
  function AddEntryFixed(d: SamDrf, t: real, v: real): (r: SamDrf)
    requires TableOk(d) && |d.t| < DrfMaxAnim
    ensures TableOk(r) && r.name == d.name
    ensures |r.t| > 0 && r.t[|r.t| - 1] == t && r.v[|r.v| - 1] == v
    ensures d.t == [] ==> r.s == [0.0]
  {
    AddEntry(d, t, v, 0.0)
  }

  /** The corrected entry differs from the written one only in the first slope. */
  lemma AddEntryFixedAgrees(d: SamDrf, t: real, v: real, outside: real)
    requires TableOk(d) && |d.t| < DrfMaxAnim
    ensures |d.t| > 0 ==> AddEntryFixed(d, t, v) == AddEntry(d, t, v, outside)
    ensures AddEntryFixed(d, t, v).t == AddEntry(d, t, v, outside).t && AddEntryFixed(d, t, v).v == AddEntry(d, t, v, outside).v
  {
  }

  // ---------------------------------------------------------------------
  // The expat callbacks
  // ---------------------------------------------------------------------

  /** An object instance of a scenery. */
  datatype SamObj = SamObj(id: string, latitude: real, longitude: real, elevation: real, heading: real)

  /** A GUI checkbox: its labels and the object and dataref it animates. */
  datatype SamAnim = SamAnim(labelText: string, title: string, objIdx: nat, drfIdx: nat)

  /** The context flags of the element handlers; `curDataref` says the last dataref is the current one. */
  datatype Flags = Flags(inJetways: bool, inSets: bool, inDatarefs: bool, inDataref: bool,
                         inObjects: bool, inGui: bool, curDataref: bool)

  /** What the handlers have built: the scenery's parts, the global datarefs and the library sets. */
  datatype Loaded = Loaded(scName: string, jws: seq<SamJwRec>, objs: seq<SamObj>, anims: seq<SamAnim>,
                           drfs: seq<SamDrf>, lib: map<int, SamJwRec>)

  function DrfNames(drfs: seq<SamDrf>): (r: seq<string>)
    ensures |r| == |drfs| && forall i :: 0 <= i < |drfs| ==> r[i] == drfs[i].name
  {
    seq(|drfs|, i requires 0 <= i < |drfs| => drfs[i].name)
  }

  function ObjIds(objs: seq<SamObj>): (r: seq<string>)
    ensures |r| == |objs| && forall i :: 0 <= i < |objs| ==> r[i] == objs[i].id
  {
    seq(|objs|, i requires 0 <= i < |objs| => objs[i].id)
  }

  /** Dataref names are non-empty and unique; tables are well-formed; checkboxes point at existing entries. */
  predicate LoadedOk(l: Loaded)
  {
    (forall i :: 0 <= i < |l.drfs| ==> l.drfs[i].name != "" && TableOk(l.drfs[i]))
    && (forall i, j :: 0 <= i < j < |l.drfs| ==> l.drfs[i].name != l.drfs[j].name)
    && (forall a :: a in l.anims ==> a.objIdx < |l.objs| && a.drfIdx < |l.drfs|)
    && (forall id :: id in l.lib ==> 1 <= id <= MaxSam3LibJw)
  }

  /** The dataref a `<dataref>` element defines, before its table is read. */
  function NewDrf(attrs: Attrs): SamDrf
  {
    SamDrf(StrField("", AttrOf(attrs, "name"), 60), BoolAttr(attrs, "autoplay"), BoolAttr(attrs, "randomize_phase"),
           BoolAttr(attrs, "augment_wind_speed"), [], [], [])
  }

  /** Appending a dataref with a new, non-empty name and a good table keeps the data well-formed. */
  lemma AppendDrfOk(l: Loaded, d: SamDrf)
    requires LoadedOk(l) && d.name != "" && d.name !in DrfNames(l.drfs) && TableOk(d)
    ensures LoadedOk(l.(drfs := l.drfs + [d]))
  {
    var ds := l.drfs + [d];
    forall i, j | 0 <= i < j < |ds|
      ensures ds[i].name != ds[j].name
    {
      if j == |l.drfs| {
        assert DrfNames(l.drfs)[i] == ds[i].name;
      }
    }
  }

  /** Replacing the table of a dataref, name kept, keeps the data well-formed. */
  lemma ReplaceDrfOk(l: Loaded, k: nat, d: SamDrf)
    requires LoadedOk(l) && k < |l.drfs| && d.name == l.drfs[k].name && TableOk(d)
    ensures LoadedOk(l.(drfs := l.drfs[k := d]))
  {
  }

  /** The element names the handlers react to; any other name is `OtherTag`. */
  datatype Tag = SceneryTag | JetwaysTag | SetsTag | JetwayTag | SetTag | DatarefsTag | DatarefTag
               | AnimationTag | ObjectsTag | InstanceTag | GuiTag | CheckboxTag | OtherTag

  /** The tag of an element name (the handlers' `strcmp` tests). */
  function TagOf(name: string): Tag
  {
    if name == "scenery" then SceneryTag else if name == "jetways" then JetwaysTag
    else if name == "sets" then SetsTag else if name == "jetway" then JetwayTag
    else if name == "set" then SetTag else if name == "datarefs" then DatarefsTag
    else if name == "dataref" then DatarefTag else if name == "animation" then AnimationTag
    else if name == "objects" then ObjectsTag else if name == "instance" then InstanceTag
    else if name == "gui" then GuiTag else if name == "checkbox" then CheckboxTag
    else OtherTag
  }

  /** The handler state is consistent: the data well-formed, a current dataref exists. */
  predicate StateOk(f: Flags, l: Loaded)
  {
    LoadedOk(l) && (f.curDataref ==> |l.drfs| > 0)
  }

  /** `<dataref>`: kept only with a non-empty name not defined before; it then becomes the current one. */
  function DatarefStep(f: Flags, l: Loaded, attrs: Attrs): (Flags, Loaded)
  {
    var d := NewDrf(attrs);
    var keep := d.name != "" && d.name !in DrfNames(l.drfs);
    (f.(inDataref := true, curDataref := keep), if keep then l.(drfs := l.drfs + [d]) else l)
  }

  /**
   * `<animation>` of the current (last) dataref: ignored when its table is
   * full or t or v is missing; as written, the first entry's slope is
   * `outside`, whatever lies in memory before the table.
   */
  function AnimationStep(l: Loaded, attrs: Attrs, atof: string -> real, outside: real): Loaded
    requires LoadedOk(l) && |l.drfs| > 0
  {
    var last := |l.drfs| - 1;
    var d := l.drfs[last];
    var at := AttrOf(attrs, "t");
    var av := AttrOf(attrs, "v");
    if |d.t| == DrfMaxAnim || at.None? || av.None? then l
    else l.(drfs := l.drfs[last := AddEntry(d, atof(at.value), atof(av.value), outside)])
  }

  /** `<checkbox>`: kept only when both its instance and its dataref resolve. */
  function CheckboxStep(l: Loaded, attrs: Attrs): Loaded
  {
    var inst := AttrOf(attrs, "instance");
    var drf := AttrOf(attrs, "dataref");
    var oi := if inst.Some? then FirstIndex(ObjIds(l.objs), inst.value) else -1;
    var di := if drf.Some? then FirstIndex(DrfNames(l.drfs), drf.value) else -1;
    if oi >= 0 && di >= 0
    then l.(anims := l.anims + [SamAnim(StrField("", AttrOf(attrs, "label"), 40), StrField("", AttrOf(attrs, "title"), 40), oi, di)])
    else l
  }

  /** An object instance as `start_element` reads it. */
  function InstanceOf(attrs: Attrs, atof: string -> real): SamObj
  {
    SamObj(StrField("", AttrOf(attrs, "id"), 30), FloatAttr(attrs, "latitude", atof), FloatAttr(attrs, "longitude", atof),
           FloatAttr(attrs, "elevation", atof), FloatAttr(attrs, "heading", atof))
  }

  /** `start_element`: the tests in the handler's order; the first that applies acts. */
  function StartStep(f: Flags, l: Loaded, tag: Tag, attrs: Attrs, atoi: string -> int, atof: string -> real, outside: real): (Flags, Loaded)
    requires StateOk(f, l)
  {
    if tag == SceneryTag then (f, l.(scName := StrField(l.scName, AttrOf(attrs, "name"), 52)))
    else if tag == JetwaysTag then (f.(inJetways := true), l)
    else if tag == SetsTag then (f.(inSets := true), l)
    else if f.inJetways && tag == JetwayTag then (f, l.(jws := l.jws + [GetJwAttrs(attrs, atoi, atof)]))
    else if f.inSets && tag == SetTag then
      var jw := GetJwAttrs(attrs, atoi, atof);
      (f, if 1 <= jw.id <= MaxSam3LibJw then l.(lib := l.lib[jw.id := jw]) else l)
    else if tag == DatarefsTag then (f.(inDatarefs := true), l)
    else if f.inDatarefs && tag == DatarefTag then DatarefStep(f, l, attrs)
    else if f.inDataref && f.curDataref && tag == AnimationTag then (f, AnimationStep(l, attrs, atof, outside))
    else if tag == ObjectsTag then (f.(inObjects := true), l)
    else if f.inObjects && tag == InstanceTag then (f, l.(objs := l.objs + [InstanceOf(attrs, atof)]))
    else if tag == GuiTag then (f.(inGui := true), l)
    else if f.inGui && tag == CheckboxTag then (f, CheckboxStep(l, attrs))
    else (f, l)
  }

  /** `end_element`: leaving a section clears its flag; the current dataref stays set. */
  function EndStep(f: Flags, tag: Tag): Flags
  {
    if tag == JetwaysTag then f.(inJetways := false)
    else if tag == SetsTag then f.(inSets := false)
    else if tag == DatarefsTag then f.(inDatarefs := false)
    else if tag == DatarefTag then f.(inDataref := false)
    else if tag == ObjectsTag then f.(inObjects := false)
    else if tag == GuiTag then f.(inGui := false)
    else f
  }

  /**
   * Every start tag keeps the state consistent: dataref names stay
   * non-empty and unique (the first definition wins), tables stay
   * well-formed, checkboxes point at existing objects and datarefs, and
   * library ids stay within 1..27.
   */
  lemma StartStepOk(f: Flags, l: Loaded, tag: Tag, attrs: Attrs, atoi: string -> int, atof: string -> real, outside: real)
    requires StateOk(f, l)
    ensures StepKeeps(l, StartStep(f, l, tag, attrs, atoi, atof, outside))
  {
    if f.inDatarefs && tag == DatarefTag {
      DatarefStepOk(f, l, tag, attrs, atoi, atof, outside);
    } else if f.inDataref && f.curDataref && tag == AnimationTag {
      AnimationStepOk(f, l, tag, attrs, atoi, atof, outside);
    } else if f.inGui && tag == CheckboxTag {
      CheckboxStepOk(l, attrs);
    } else {
      OtherStepOk(f, l, tag, attrs, atoi, atof, outside);
    }
  }

  /** A step's outcome is consistent and keeps every dataref defined before, under its name and index. */
  predicate StepKeeps(l: Loaded, next: (Flags, Loaded))
  {
    StateOk(next.0, next.1) && |l.drfs| <= |next.1.drfs|
    && forall i :: 0 <= i < |l.drfs| ==> next.1.drfs[i].name == l.drfs[i].name
  }

  /** `<dataref>` keeps the state consistent and keeps the names defined before. */
  lemma DatarefStepOk(f: Flags, l: Loaded, tag: Tag, attrs: Attrs, atoi: string -> int, atof: string -> real, outside: real)
    requires StateOk(f, l) && f.inDatarefs && tag == DatarefTag
    ensures StepKeeps(l, StartStep(f, l, tag, attrs, atoi, atof, outside))
  {
    var d := NewDrf(attrs);
    if d.name != "" && d.name !in DrfNames(l.drfs) {
      AppendDrfOk(l, d);
    }
  }

  /** `<animation>` keeps the state consistent and keeps the names. */
  lemma AnimationStepOk(f: Flags, l: Loaded, tag: Tag, attrs: Attrs, atoi: string -> int, atof: string -> real, outside: real)
    requires StateOk(f, l) && f.inDataref && f.curDataref && tag == AnimationTag
    ensures StepKeeps(l, StartStep(f, l, tag, attrs, atoi, atof, outside)) && |StartStep(f, l, tag, attrs, atoi, atof, outside).1.drfs| == |l.drfs|
  {
    assert StartStep(f, l, tag, attrs, atoi, atof, outside) == (f, AnimationStep(l, attrs, atof, outside));
    AnimationKeeps(f, l, attrs, atof, outside);
  }

  /** The table update of `<animation>` keeps the data well-formed and every dataref's name. */
  lemma AnimationKeeps(f: Flags, l: Loaded, attrs: Attrs, atof: string -> real, outside: real)
    requires StateOk(f, l) && f.curDataref
    ensures StepKeeps(l, (f, AnimationStep(l, attrs, atof, outside))) && |AnimationStep(l, attrs, atof, outside).drfs| == |l.drfs|
  {
    var last := |l.drfs| - 1;
    var d := l.drfs[last];
    var at := AttrOf(attrs, "t");
    var av := AttrOf(attrs, "v");
    if !(|d.t| == DrfMaxAnim || at.None? || av.None?) {
      ReplaceDrfOk(l, last, AddEntry(d, atof(at.value), atof(av.value), outside));
    }
  }

  /** `<checkbox>` keeps the data well-formed and leaves the datarefs alone. */
  lemma CheckboxStepOk(l: Loaded, attrs: Attrs)
    requires LoadedOk(l)
    ensures LoadedOk(CheckboxStep(l, attrs)) && CheckboxStep(l, attrs).drfs == l.drfs
  {
  }

  /** The remaining tags leave the datarefs alone and keep the state consistent. */
  lemma OtherStepOk(f: Flags, l: Loaded, tag: Tag, attrs: Attrs, atoi: string -> int, atof: string -> real, outside: real)
    requires StateOk(f, l)
    requires !(f.inDatarefs && tag == DatarefTag) && !(f.inDataref && f.curDataref && tag == AnimationTag)
    requires !(f.inGui && tag == CheckboxTag)
    ensures StepKeeps(l, StartStep(f, l, tag, attrs, atoi, atof, outside)) && StartStep(f, l, tag, attrs, atoi, atof, outside).1.drfs == l.drfs
  {
  }

  /** A dataref name defined before is never defined again. */
  lemma DuplicateDatarefIgnored(f: Flags, l: Loaded, attrs: Attrs)
    requires NewDrf(attrs).name in DrfNames(l.drfs)
    ensures DatarefStep(f, l, attrs) == (f.(inDataref := true, curDataref := false), l)
  {
  }

  class SamXmlCtx {
    var flags: Flags
    var scName: string
    var jws: seq<SamJwRec>
    var objs: seq<SamObj>
    var anims: seq<SamAnim>
    var drfs: seq<SamDrf>
    var lib: map<int, SamJwRec>

    function Data(): Loaded
      reads this
    {
      Loaded(scName, jws, objs, anims, drfs, lib)
    }

    predicate Valid()
      reads this
    {
      StateOk(flags, Data())
    }

    /** `parse_sam_xml`'s zeroed context for a new scenery, with the datarefs and library read so far. */
    constructor (drfs0: seq<SamDrf>, lib0: map<int, SamJwRec>)
      requires LoadedOk(Loaded("", [], [], [], drfs0, lib0))
      ensures Valid()
      ensures flags == Flags(false, false, false, false, false, false, false)
      ensures Data() == Loaded("", [], [], [], drfs0, lib0)
    {
      flags := Flags(false, false, false, false, false, false, false);
      scName := "";
      jws := [];
      objs := [];
      anims := [];
      drfs := drfs0;
      lib := lib0;
    }

    method StartDataref(attrs: Attrs)
      modifies this
      ensures (flags, Data()) == DatarefStep(old(flags), old(Data()), attrs)
    {
      var nameVal := LookupAttr(attrs, "name");
      var name := StrField("", nameVal, 60);
      var found := -1;
      if name != "" {
        found := LookupName(DrfNames(drfs), name);
      }
      var keep := name != "" && found < 0;
      if keep {
        var autoplay := LookupAttr(attrs, "autoplay");
        var randomize := LookupAttr(attrs, "randomize_phase");
        var augment := LookupAttr(attrs, "augment_wind_speed");
        drfs := drfs + [SamDrf(name, autoplay == Some("true"), randomize == Some("true"), augment == Some("true"), [], [], [])];
      }
      flags := flags.(inDataref := true, curDataref := keep);
    }

    method StartAnimation(attrs: Attrs, atof: string -> real, outside: real)
      requires LoadedOk(Data()) && |drfs| > 0
      modifies this
      ensures flags == old(flags) && Data() == AnimationStep(old(Data()), attrs, atof, outside)
    {
      var last := |drfs| - 1;
      var d := drfs[last];
      if |d.t| == DrfMaxAnim {
        return;
      }
      var attrT := LookupAttr(attrs, "t");
      var attrV := LookupAttr(attrs, "v");
      if attrT.Some? && attrV.Some? {
        drfs := drfs[last := AddEntry(d, atof(attrT.value), atof(attrV.value), outside)];
      }
    }

    method StartCheckbox(attrs: Attrs)
      modifies this
      ensures flags == old(flags) && Data() == CheckboxStep(old(Data()), attrs)
    {
      var labelVal := LookupAttr(attrs, "label");
      var titleVal := LookupAttr(attrs, "title");
      var objIdx := -1;
      var drfIdx := -1;
      var inst := LookupAttr(attrs, "instance");
      if inst.Some? {
        objIdx := LookupName(ObjIds(objs), inst.value);
      }
      var name := LookupAttr(attrs, "dataref");
      if name.Some? {
        drfIdx := LookupName(DrfNames(drfs), name.value);
      }
      if objIdx >= 0 && drfIdx >= 0 {
        anims := anims + [SamAnim(StrField("", labelVal, 40), StrField("", titleVal, 40), objIdx, drfIdx)];
      }
    }

    /** `start_element` on the context. */
    method StartElement(tag: Tag, attrs: Attrs, atoi: string -> int, atof: string -> real, outside: real)
      requires Valid()
      modifies this
      ensures (flags, Data()) == StartStep(old(flags), old(Data()), tag, attrs, atoi, atof, outside)
      ensures Valid()
    {
      StartStepOk(flags, Data(), tag, attrs, atoi, atof, outside);
      if tag == SceneryTag {
        var v := LookupAttr(attrs, "name");
        scName := StrField(scName, v, 52);
      } else if tag == JetwaysTag {
        flags := flags.(inJetways := true);
      } else if tag == SetsTag {
        flags := flags.(inSets := true);
      } else if flags.inJetways && tag == JetwayTag {
        jws := jws + [GetJwAttrs(attrs, atoi, atof)];
      } else if flags.inSets && tag == SetTag {
        var jw := GetJwAttrs(attrs, atoi, atof);
        if 1 <= jw.id <= MaxSam3LibJw {
          lib := lib[jw.id := jw];
        }
      } else if tag == DatarefsTag {
        flags := flags.(inDatarefs := true);
      } else if flags.inDatarefs && tag == DatarefTag {
        StartDataref(attrs);
      } else if flags.inDataref && flags.curDataref && tag == AnimationTag {
        StartAnimation(attrs, atof, outside);
      } else if tag == ObjectsTag {
        flags := flags.(inObjects := true);
      } else if flags.inObjects && tag == InstanceTag {
        objs := objs + [InstanceOf(attrs, atof)];
      } else if tag == GuiTag {
        flags := flags.(inGui := true);
      } else if flags.inGui && tag == CheckboxTag {
        StartCheckbox(attrs);
      }
    }

    /** `end_element` on the context. */
    method EndElement(tag: Tag)
      requires Valid()
      modifies this
      ensures flags == EndStep(old(flags), tag) && Data() == old(Data())
      ensures Valid()
    {
      if tag == JetwaysTag {
        flags := flags.(inJetways := false);
      } else if tag == SetsTag {
        flags := flags.(inSets := false);
      } else if tag == DatarefsTag {
        flags := flags.(inDatarefs := false);
      } else if tag == DatarefTag {
        flags := flags.(inDataref := false);
      } else if tag == ObjectsTag {
        flags := flags.(inObjects := false);
      } else if tag == GuiTag {
        flags := flags.(inGui := false);
      }
    }
  }

  // ---------------------------------------------------------------------
  // scenery_packs.ini
  // ---------------------------------------------------------------------

  const PackPrefix := "SCENERY_PACK "

  /** The scenery path one line of `scenery_packs.ini` yields, if any. */
  function PackPath(xpDir: string, line: string): (r: Option<string>)
    ensures r.Some? ==> '\\' !in r.value
  {
    var l := CutAt(line, '\r');
    if !(PackPrefix <= l) || Contains(l, "*GLOBAL_AIRPORTS*") || Contains(l, "/z_ao_") then None
    else
      var p := l[|PackPrefix|..];
      var absolute := (|p| > 0 && p[0] == '/') || ':' in p;
      Some(MapChar(if absolute then p else xpDir + "/" + p, '\\', '/'))
  }

  /** The library and scenery paths read from lines; a later library line replaces an earlier one. */
  datatype Packs = Packs(openSamLib: string, samLib: string, scPaths: seq<string>)

  function PacksOf(xpDir: string, lines: seq<string>): Packs
  {
    if lines == [] then Packs("", "", [])
    else AddPack(PacksOf(xpDir, lines[..|lines| - 1]), PackPath(xpDir, lines[|lines| - 1]))
  }

  /** One line's path: a library path replaces that library, any other path is a scenery. */
  function AddPack(p: Packs, path: Option<string>): Packs
  {
    match path
    case None => p
    case Some(q) =>
      if Contains(q, "/openSAM_Library/") then p.(openSamLib := q)
      else if Contains(q, "/SAM_Library/") then p.(samLib := q)
      else p.(scPaths := p.scPaths + [q])
  }

  /**
   * `SceneryPacks::SceneryPacks`: without the file nothing is read (and
   * nothing thrown); after reading, a missing openSAM library is an error.
   */
  method SceneryPacks(xpDir: string, file: Option<seq<string>>) returns (r: Result<Packs>)
    ensures file.None? ==> r == Ok(Packs("", "", []))
    ensures file.Some? ==> (r.Err? <==> PacksOf(xpDir, file.value).openSamLib == "")
    ensures file.Some? && r.Ok? ==> r.value == PacksOf(xpDir, file.value)
  {
    if file.None? {
      return Ok(Packs("", "", []));
    }
    var lines := file.value;
    var openSamLib := "";
    var samLib := "";
    var scPaths: seq<string> := [];
    for i := 0 to |lines|
      invariant Packs(openSamLib, samLib, scPaths) == PacksOf(xpDir, lines[..i])
    {
      assert lines[..i + 1][..i] == lines[..i];
      var path := PackPath(xpDir, lines[i]);
      if path.None? {
        continue;
      }
      var p := path.value;
      if Contains(p, "/openSAM_Library/") {
        openSamLib := p;
        continue;
      }
      if Contains(p, "/SAM_Library/") {
        samLib := p;
        continue;
      }
      scPaths := scPaths + [p];
    }
    assert lines[..|lines|] == lines;
    if openSamLib == "" {
      return Err("ERROR: openSAM_Library is not installed, bye!");
    }
    return Ok(Packs(openSamLib, samLib, scPaths));
  }

  /** Scenery paths never name a library, use only '/' separators, and the libraries are what their names say. */
  lemma {:induction false} PacksClean(xpDir: string, lines: seq<string>)
    ensures PacksCleanOf(PacksOf(xpDir, lines))
  {
    if lines != [] {
      PacksClean(xpDir, lines[..|lines| - 1]);
      AddPackClean(PacksOf(xpDir, lines[..|lines| - 1]), PackPath(xpDir, lines[|lines| - 1]));
    }
  }

  /** Scenery paths never name a library and use only '/' separators; the libraries are what their names say. */
  predicate PacksCleanOf(p: Packs)
  {
    (forall q :: q in p.scPaths ==> !Contains(q, "/openSAM_Library/") && !Contains(q, "/SAM_Library/") && '\\' !in q)
    && (p.openSamLib == "" || Contains(p.openSamLib, "/openSAM_Library/"))
    && (p.samLib == "" || Contains(p.samLib, "/SAM_Library/"))
  }

  /** Adding a path without backslashes keeps the packs clean. */
  lemma AddPackClean(p: Packs, path: Option<string>)
    requires PacksCleanOf(p) && (path.Some? ==> '\\' !in path.value)
    ensures PacksCleanOf(AddPack(p, path))
  {
  }

  /** A relative entry is placed under the X-Plane directory; an absolute one is taken as it stands. */
  lemma PackPathPlacement(xpDir: string, rest: string)
    requires '\r' !in rest && '\\' !in xpDir + rest
    requires !Contains(PackPrefix + rest, "*GLOBAL_AIRPORTS*") && !Contains(PackPrefix + rest, "/z_ao_")
    ensures (|rest| > 0 && rest[0] == '/') || ':' in rest ==> PackPath(xpDir, PackPrefix + rest) == Some(rest)
    ensures !((|rest| > 0 && rest[0] == '/') || ':' in rest) ==> PackPath(xpDir, PackPrefix + rest) == Some(xpDir + "/" + rest)
  {
    var line := PackPrefix + rest;
    CutAtAbsent(line, '\r');
    assert line[|PackPrefix|..] == rest;
    MapCharAbsent(rest, '\\', '/');
    MapCharAbsent(xpDir + "/" + rest, '\\', '/');
  }

  lemma CutAtAbsent(s: string, c: char)
    requires c !in s
    ensures CutAt(s, c) == s
  {
    if s != [] {
      CutAtAbsent(s[1..], c);
    }
  }

  lemma MapCharAbsent(s: string, a: char, b: char)
    requires a !in s
    ensures MapChar(s, a, b) == s
  {
  }

  // ---------------------------------------------------------------------
  // collect_sam_xml
  // ---------------------------------------------------------------------

  /** Latitude span of `FAR_SKIP` (5000 m) at 111120 m per degree. */
  const FarSkipDlat: real := 5000.0 / 111120.0

  /**
   * A jetway or stand position; `dlon` is the longitude span of `FAR_SKIP`
   * at that latitude, which the source computes with `cosf`.
   */
  datatype Pos = Pos(lat: real, lon: real, dlon: real)

  /** A position on the globe, with a non-negative longitude span. */
  predicate PosOk(p: Pos)
  {
    -90.0 <= p.lat <= 90.0 && -180.0 <= p.lon <= 180.0 && p.dlon >= 0.0
  }

  /** A scenery as `parse_sam_xml` and `parse_apt_dat` leave it. */
  datatype ParsedScenery = ParsedScenery(name: string, jws: seq<Pos>, stands: seq<Pos>, nAnims: nat)

  /** A jetway's own box: its longitudes are normalised with `RA`. */
  function JwBox(p: Pos): BBox
  {
    BBox(p.lat - FarSkipDlat, p.lat + FarSkipDlat, RA(p.lon - p.dlon), RA(p.lon + p.dlon))
  }

  /** A stand's contribution: its longitudes are not normalised. */
  function StandBox(p: Pos): BBox
  {
    BBox(p.lat - FarSkipDlat, p.lat + FarSkipDlat, p.lon - p.dlon, p.lon + p.dlon)
  }

  /** All boxes a scenery's box must enclose, jetways first. */
  function Boxes(sc: ParsedScenery): (r: seq<BBox>)
    ensures |r| == |sc.jws| + |sc.stands|
  {
    seq(|sc.jws|, i requires 0 <= i < |sc.jws| => JwBox(sc.jws[i]))
      + seq(|sc.stands|, i requires 0 <= i < |sc.stands| => StandBox(sc.stands[i]))
  }

  predicate Encloses(b: BBox, x: BBox)
  {
    b.latMin <= x.latMin && x.latMax <= b.latMax && b.lonMin <= x.lonMin && x.lonMax <= b.lonMax
  }

  /** Each bound of b is attained by one of the boxes. */
  predicate Attained(b: BBox, xs: seq<BBox>)
  {
    (exists i :: 0 <= i < |xs| && xs[i].latMin == b.latMin) && (exists i :: 0 <= i < |xs| && xs[i].latMax == b.latMax)
    && (exists i :: 0 <= i < |xs| && xs[i].lonMin == b.lonMin) && (exists i :: 0 <= i < |xs| && xs[i].lonMax == b.lonMax)
  }

  /** The empty box `collect_sam_xml` starts from. */
  const Unset := BBox(1000.0, -1000.0, 1000.0, -1000.0)

  function Widen(b: BBox, x: BBox): BBox
  {
    BBox(if x.latMin < b.latMin then x.latMin else b.latMin, if x.latMax > b.latMax then x.latMax else b.latMax,
         if x.lonMin < b.lonMin then x.lonMin else b.lonMin, if x.lonMax > b.lonMax then x.lonMax else b.lonMax)
  }

  /** Box bounds that lie inside the empty box's range. */
  predicate Finite(x: BBox)
  {
    x.latMin < 1000.0 && x.latMax > -1000.0 && x.lonMin < 1000.0 && x.lonMax > -1000.0
  }

  lemma BoxesFinite(sc: ParsedScenery)
    requires ScOk(sc)
    ensures forall k :: 0 <= k < |Boxes(sc)| ==> Finite(Boxes(sc)[k])
  {
    forall k | 0 <= k < |Boxes(sc)|
      ensures Finite(Boxes(sc)[k])
    {
      if k < |sc.jws| {
        assert sc.jws[k] in sc.jws;
      } else {
        assert sc.stands[k - |sc.jws|] in sc.stands;
      }
    }
  }

  /** Widening by the next box keeps the union enclosing and its bounds attained. */
  lemma WidenStep(b: BBox, xs: seq<BBox>, i: nat)
    requires i < |xs| && Finite(xs[i])
    requires forall k :: 0 <= k < i ==> Encloses(b, xs[k])
    requires i > 0 ==> Attained(b, xs[..i])
    requires i == 0 ==> b == Unset
    ensures forall k :: 0 <= k < i + 1 ==> Encloses(Widen(b, xs[i]), xs[k])
    ensures Attained(Widen(b, xs[i]), xs[..i + 1])
  {
    var nb := Widen(b, xs[i]);
    var ys := xs[..i + 1];
    assert ys[i] == xs[i];
    if i > 0 {
      assert forall k :: 0 <= k < i ==> ys[k] == xs[..i][k];
    }
  }

  /** The two loops of `collect_sam_xml`: the min/max union of the jetway and stand boxes. */
  method ScBBox(sc: ParsedScenery) returns (b: BBox)
    requires ScOk(sc)
    ensures forall x :: x in Boxes(sc) ==> Encloses(b, x)
    ensures |Boxes(sc)| > 0 ==> Attained(b, Boxes(sc))
    ensures |Boxes(sc)| == 0 ==> b == Unset
  {
    BoxesFinite(sc);
    b := UnionBox(Boxes(sc));
  }

  /** The min/max union of finite boxes, from the empty box. */
  method UnionBox(xs: seq<BBox>) returns (b: BBox)
    requires forall k :: 0 <= k < |xs| ==> Finite(xs[k])
    ensures forall x :: x in xs ==> Encloses(b, x)
    ensures |xs| > 0 ==> Attained(b, xs)
    ensures |xs| == 0 ==> b == Unset
  {
    b := Unset;
    for i := 0 to |xs|
      invariant forall k :: 0 <= k < i ==> Encloses(b, xs[k])
      invariant i > 0 ==> Attained(b, xs[..i])
      invariant i == 0 ==> b == Unset
    {
      WidenStep(b, xs, i);
      b := Widen(b, xs[i]);
    }
    assert xs[..|xs|] == xs;
  }

  /** A kept scenery with its box. */
  datatype SceneryOut = SceneryOut(name: string, jws: seq<Pos>, stands: seq<Pos>, nAnims: nat, bbox: BBox)

  predicate ScOk(sc: ParsedScenery)
  {
    (forall p :: p in sc.jws ==> PosOk(p)) && forall p :: p in sc.stands ==> PosOk(p)
  }

  predicate Empty(sc: ParsedScenery)
  {
    |sc.jws| == 0 && |sc.stands| == 0 && sc.nAnims == 0
  }

  /** The sceneries `collect_sam_xml` keeps: those that parsed and are not empty, in order. */
  function KeptScs(parsed: seq<Option<ParsedScenery>>): seq<ParsedScenery>
  {
    if parsed == [] then []
    else
      var last := parsed[|parsed| - 1];
      KeptScs(parsed[..|parsed| - 1]) + (if last.Some? && !Empty(last.value) then [last.value] else [])
  }

  /** A kept scenery with the min/max union of its jetway and stand boxes (the empty box when it has none). */
  predicate BoxedOut(o: SceneryOut, sc: ParsedScenery)
  {
    o.name == sc.name && o.jws == sc.jws && o.stands == sc.stands && o.nAnims == sc.nAnims
    && (forall x :: x in Boxes(sc) ==> Encloses(o.bbox, x))
    && (|Boxes(sc)| > 0 ==> Attained(o.bbox, Boxes(sc)))
    && (|Boxes(sc)| == 0 ==> o.bbox == Unset)
  }

  /** A scenery is kept exactly when it parsed and is not empty. */
  lemma {:induction false} KeptScsMembers(parsed: seq<Option<ParsedScenery>>)
    ensures forall sc :: sc in KeptScs(parsed) <==> Some(sc) in parsed && !Empty(sc)
  {
    if parsed != [] {
      var init := parsed[..|parsed| - 1];
      KeptScsMembers(init);
      assert parsed == init + [parsed[|parsed| - 1]];
    }
  }

  /** One scenery is kept per slot that parsed to a non-empty scenery. */
  lemma {:induction false} KeptScsCount(parsed: seq<Option<ParsedScenery>>)
    ensures |KeptScs(parsed)| == |set i | 0 <= i < |parsed| && parsed[i].Some? && !Empty(parsed[i].value)|
  {
    var all := set i | 0 <= i < |parsed| && parsed[i].Some? && !Empty(parsed[i].value);
    if parsed != [] {
      var n := |parsed| - 1;
      var init := parsed[..n];
      KeptScsCount(init);
      var before := set i | 0 <= i < n && init[i].Some? && !Empty(init[i].value);
      if parsed[n].Some? && !Empty(parsed[n].value) {
        assert all == before + {n};
      } else {
        assert all == before;
      }
    } else {
      assert all == {};
    }
  }

  /**
   * `collect_sam_xml`: the openSAM library must be present and readable;
   * every scenery whose sam.xml parsed and that is not empty is kept, in
   * order, with the min/max union of its jetway and stand boxes.
   */
  method CollectSamXml(packs: Packs, openSamLibParsed: bool, parsed: seq<Option<ParsedScenery>>)
    returns (r: Result<seq<SceneryOut>>)
    requires |parsed| == |packs.scPaths|
    requires forall i :: 0 <= i < |parsed| && parsed[i].Some? ==> ScOk(parsed[i].value)
    ensures r.Err? <==> packs.openSamLib == "" || !openSamLibParsed
    ensures r.Ok? ==> |r.value| == |KeptScs(parsed)|
    ensures r.Ok? ==> forall k :: 0 <= k < |r.value| ==> BoxedOut(r.value[k], KeptScs(parsed)[k])
  {
    if packs.openSamLib == "" || !openSamLibParsed {
      return Err("ERROR: openSAM_Library is not installed or inaccessible, bye!");
    }
    var out: seq<SceneryOut> := [];
    for i := 0 to |parsed|
      invariant |out| == |KeptScs(parsed[..i])|
      invariant forall k :: 0 <= k < |out| ==> BoxedOut(out[k], KeptScs(parsed[..i])[k])
    {
      assert parsed[..i + 1][..i] == parsed[..i];
      if parsed[i].None? || Empty(parsed[i].value) {
        continue;
      }
      var sc := parsed[i].value;
      var b := ScBBox(sc);
      out := out + [SceneryOut(sc.name, sc.jws, sc.stands, sc.nAnims, b)];
    }
    assert parsed[..|parsed|] == parsed;
    return Ok(out);
  }
}
