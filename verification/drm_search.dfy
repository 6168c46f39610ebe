/** The first-match searches of the DRM back-end: the connector scan and the CRTC index
    lookup of findCrtc, the overlay-plane choice of findPlane, and the property and enum
    name search of drm_set_property. Each is a loop over a list the kernel hands back; the
    lists are parameters here. Every loop is proved against a recursive specification
    function whose own contract says which element is the first (or last) match. */
module DrmSearch {
  import opened Common

  /** A CRTC as drmModeGetCrtc reports it: id, position and size of its mode. */
  datatype Crtc = Crtc(id: nat, x: nat, y: nat, width: nat, height: nat)

  /** A connector as the scan sees it: its id and the CRTC driven through its encoder (None
      when it has no encoder or the encoder has no CRTC). */
  datatype Connector = Connector(id: nat, crtc: Option<Crtc>)

  /** A connector that is lit: its encoder drives a CRTC. */
  predicate Active(c: Connector) { c.crtc.Some? }

  /** A connector the scan can settle on: lit, and with an id that makes `conId_` non-zero. */
  predicate Eligible(c: Connector) { c.crtc.Some? && c.id != 0 }

  /** Index of the first eligible connector. Defined on prefixes so that a left-to-right
      scan extends it one element at a time. */
  function FirstEligible(cons: seq<Connector>): (r: Option<nat>)
    ensures r.Some? ==> r.value < |cons| && Eligible(cons[r.value])
    ensures r.Some? ==> forall j :: 0 <= j < r.value ==> !Eligible(cons[j])
    ensures r.None? ==> forall j :: 0 <= j < |cons| ==> !Eligible(cons[j])
  {
    if cons == [] then None
    else
      var r0 := FirstEligible(cons[..|cons| - 1]);
      if r0.Some? then r0
      else if Eligible(cons[|cons| - 1]) then Some(|cons| - 1)
      else None
  }

  /** Index of the last lit connector. */
  function LastActive(cons: seq<Connector>): (r: Option<nat>)
    ensures r.Some? ==> r.value < |cons| && Active(cons[r.value])
    ensures r.Some? ==> forall j :: r.value < j < |cons| ==> !Active(cons[j])
    ensures r.None? ==> forall j :: 0 <= j < |cons| ==> !Active(cons[j])
  {
    if cons == [] then None
    else if Active(cons[|cons| - 1]) then Some(|cons| - 1)
    else LastActive(cons[..|cons| - 1])
  }

  /** The connector loop of findCrtc, entered with `conId_ == 0`. `conId_` and `crtcId_`
      come from the first eligible connector; the screen size is overwritten by every lit
      connector, so the last one wins. With no eligible connector `conId_` stays 0 (the
      caller then throws) and `crtcId_` is not specified. */
  method ScanConnectors(cons: seq<Connector>, crtcId0: nat, screenWidth0: nat, screenHeight0: nat)
    returns (conId: nat, crtcId: nat, screenWidth: nat, screenHeight: nat)
    ensures match FirstEligible(cons)
      case Some(k) => conId == cons[k].id && crtcId == cons[k].crtc.value.id
      case None => conId == 0
    ensures match LastActive(cons)
      case Some(k) => screenWidth == cons[k].crtc.value.width && screenHeight == cons[k].crtc.value.height
      case None => screenWidth == screenWidth0 && screenHeight == screenHeight0
  {
    conId, crtcId, screenWidth, screenHeight := 0, crtcId0, screenWidth0, screenHeight0;
    var i := 0;
    while i < |cons|
      invariant 0 <= i <= |cons|
      invariant match FirstEligible(cons[..i])
        case Some(k) => conId == cons[k].id && crtcId == cons[k].crtc.value.id
        case None => conId == 0
      invariant match LastActive(cons[..i])
        case Some(k) => screenWidth == cons[k].crtc.value.width && screenHeight == cons[k].crtc.value.height
        case None => screenWidth == screenWidth0 && screenHeight == screenHeight0
    {
      var con := cons[i];
      if conId == 0 && con.crtc.Some? {
        conId := con.id;
        crtcId := con.crtc.value.id;
      }
      if con.crtc.Some? {
        screenWidth := con.crtc.value.width;
        screenHeight := con.crtc.value.height;
      }
      assert cons[..i + 1][..i] == cons[..i];
      i := i + 1;
    }
    assert cons[..|cons|] == cons;
  }

  /** The CRTC index loop of findCrtc: the smallest index whose CRTC has id `crtcId`, or -1
      (on which the caller throws "CRTC not found"). */
  method CrtcIndex(crtcs: seq<Crtc>, crtcId: nat) returns (idx: int)
    ensures -1 <= idx < |crtcs|
    ensures idx == -1 <==> forall j :: 0 <= j < |crtcs| ==> crtcs[j].id != crtcId
    ensures idx >= 0 ==> crtcs[idx].id == crtcId && forall j :: 0 <= j < idx ==> crtcs[j].id != crtcId
  {
    idx := -1;
    var i := 0;
    while i < |crtcs|
      invariant 0 <= i <= |crtcs|
      invariant forall j :: 0 <= j < i ==> crtcs[j].id != crtcId
    {
      if crtcs[i].id == crtcId {
        idx := i;
        break;
      }
      i := i + 1;
    }
  }

  /** An overlay plane: its id, the bitmask of CRTC indices it can be shown on, and the
      pixel formats it scans out. */
  datatype Plane = Plane(id: nat, possibleCrtcs: nat, formats: seq<nat>)

  /** `possible_crtcs & (1 << crtcIdx)` is set and the plane lists `fourcc`. */
  predicate Suitable(p: Plane, crtcIdx: nat, fourcc: nat)
  {
    BitSet(p.possibleCrtcs, crtcIdx) && fourcc in p.formats
  }

  /** Index of the first suitable plane. */
  function FirstSuitable(planes: seq<Plane>, crtcIdx: nat, fourcc: nat): (r: Option<nat>)
    ensures r.Some? ==> r.value < |planes| && Suitable(planes[r.value], crtcIdx, fourcc)
    ensures r.Some? ==> forall j :: 0 <= j < r.value ==> !Suitable(planes[j], crtcIdx, fourcc)
    ensures r.None? ==> forall j :: 0 <= j < |planes| ==> !Suitable(planes[j], crtcIdx, fourcc)
  {
    if planes == [] then None
    else
      var r0 := FirstSuitable(planes[..|planes| - 1], crtcIdx, fourcc);
      if r0.Some? then r0
      else if Suitable(planes[|planes| - 1], crtcIdx, fourcc) then Some(|planes| - 1)
      else None
  }

  /** The loop of findPlane: `planeId_` becomes the id of the first plane that can be shown on CRTC
      `crtcIdx` and lists `fourcc`; when none qualifies it keeps its old value. */
  method ChoosePlane(planes: seq<Plane>, crtcIdx: nat, fourcc: nat, planeId0: nat) returns (planeId: nat)
    ensures match FirstSuitable(planes, crtcIdx, fourcc)
      case Some(k) => planeId == planes[k].id
      case None => planeId == planeId0
  {
    planeId := planeId0;
    var i := 0;
    while i < |planes|
      invariant 0 <= i <= |planes|
      invariant FirstSuitable(planes[..i], crtcIdx, fourcc).None?
      invariant planeId == planeId0
    {
      var plane := planes[i];
      if !BitSet(plane.possibleCrtcs, crtcIdx) {
        assert planes[..i + 1][..i] == planes[..i];
        i := i + 1;
        continue;
      }
      var j := 0;
      while j < |plane.formats|
        invariant 0 <= j <= |plane.formats|
        invariant fourcc !in plane.formats[..j]
      {
        if plane.formats[j] == fourcc {
          break;
        }
        assert plane.formats[..j + 1] == plane.formats[..j] + [plane.formats[j]];
        j := j + 1;
      }
      assert j < |plane.formats| ==> plane.formats[j] == fourcc;
      if j == |plane.formats| {
        assert plane.formats[..j] == plane.formats;
        assert planes[..i + 1][..i] == planes[..i];
        i := i + 1;
        continue;
      }
      planeId := plane.id;
      assert FirstSuitable(planes[..i + 1], crtcIdx, fourcc) == Some(i) by {
        assert planes[..i + 1][..i] == planes[..i];
      }
      PrefixMatch(planes, i + 1, crtcIdx, fourcc);
      return;
    }
    assert planes[..|planes|] == planes;
  }

  /** Once a prefix has a suitable plane, longer lists keep that first match. */
  lemma PrefixMatch(planes: seq<Plane>, n: nat, crtcIdx: nat, fourcc: nat)
    requires n <= |planes| && FirstSuitable(planes[..n], crtcIdx, fourcc).Some?
    ensures FirstSuitable(planes, crtcIdx, fourcc) == FirstSuitable(planes[..n], crtcIdx, fourcc)
  {
  }

  /** One entry of a DRM enum property's name-to-value table. */
  datatype EnumEntry = EnumEntry(name: string, value: nat)

  /** A plane property as drmModeGetProperty reports it. */
  datatype Property = Property(id: nat, isEnum: bool, name: string, enums: seq<EnumEntry>)

  /** What drm_set_property found: a value to write into a property, a property without a
      matching enum entry, or no matching property at all. */
  datatype PropertySearch = Write(propId: nat, value: nat) | NoSuchValue(propId: nat) | NoSuchProperty

  /** The property drm_set_property stops at: the first one that could be read, is an enum,
      and whose name contains `name`. Unreadable properties are `None`. */
  predicate Matches(p: Option<Property>, name: string)
  {
    p.Some? && p.value.isEnum && Contains(p.value.name, name)
  }

  function FirstProperty(props: seq<Option<Property>>, name: string): (r: Option<nat>)
    ensures r.Some? ==> r.value < |props| && Matches(props[r.value], name)
    ensures r.Some? ==> forall j :: 0 <= j < r.value ==> !Matches(props[j], name)
    ensures r.None? ==> forall j :: 0 <= j < |props| ==> !Matches(props[j], name)
  {
    if props == [] then None
    else
      var r0 := FirstProperty(props[..|props| - 1], name);
      if r0.Some? then r0
      else if Matches(props[|props| - 1], name) then Some(|props| - 1)
      else None
  }

  /** Index of the first enum entry whose name contains `val`. */
  function FirstEnum(enums: seq<EnumEntry>, val: string): (r: Option<nat>)
    ensures r.Some? ==> r.value < |enums| && Contains(enums[r.value].name, val)
    ensures r.Some? ==> forall j :: 0 <= j < r.value ==> !Contains(enums[j].name, val)
    ensures r.None? ==> forall j :: 0 <= j < |enums| ==> !Contains(enums[j].name, val)
  {
    if enums == [] then None
    else
      var r0 := FirstEnum(enums[..|enums| - 1], val);
      if r0.Some? then r0
      else if Contains(enums[|enums| - 1].name, val) then Some(|enums| - 1)
      else None
  }

  /** The outcome of drm_set_property: only the first matching property is looked at; if
      its table has no entry matching `val` the search ends there. */
  function PropertyChoice(props: seq<Option<Property>>, name: string, val: string): (r: PropertySearch)
    ensures r == NoSuchProperty <==> FirstProperty(props, name).None?
    ensures r.NoSuchValue? <==>
              FirstProperty(props, name).Some? &&
              FirstEnum(props[FirstProperty(props, name).value].value.enums, val).None?
    ensures r.NoSuchValue? ==> r.propId == props[FirstProperty(props, name).value].value.id
    ensures r.Write? ==>
              && FirstProperty(props, name).Some?
              && var p := props[FirstProperty(props, name).value].value;
                 && FirstEnum(p.enums, val).Some?
                 && r.propId == p.id && r.value == p.enums[FirstEnum(p.enums, val).value].value
  {
    match FirstProperty(props, name)
    case None => NoSuchProperty
    case Some(k) =>
      var p := props[k].value;
      match FirstEnum(p.enums, val)
      case None => NoSuchValue(p.id)
      case Some(e) => Write(p.id, p.enums[e].value)
  }

  /** drm_set_property: walks the plane's properties, skipping unreadable ones and those
      that are not an enum or whose name does not contain `name`; in the first one left it
      looks for an enum entry whose name contains `val` and writes that entry's value.
      `setResult` is what drmModeObjectSetProperty returns. The result is -1 unless a write
      was attempted, and then it is the write's own result. */
  method SetProperty(props: seq<Option<Property>>, name: string, val: string, setResult: int)
    returns (ret: int, search: PropertySearch)
    ensures search == PropertyChoice(props, name, val)
    ensures ret == (if search.Write? then setResult else -1)
  {
    ret := -1;
    var i := 0;
    while i < |props|
      invariant 0 <= i <= |props|
      invariant FirstProperty(props[..i], name).None?
    {
      assert props[..i + 1][..i] == props[..i];
      if !Matches(props[i], name) {
        i := i + 1;
        continue;
      }
      assert FirstProperty(props[..i + 1], name) == Some(i);
      PropertyPrefix(props, i + 1, name);
      var prop := props[i].value;
      var j := 0;
      while j < |prop.enums|
        invariant 0 <= j <= |prop.enums|
        invariant FirstEnum(prop.enums[..j], val).None?
      {
        assert prop.enums[..j + 1][..j] == prop.enums[..j];
        if Contains(prop.enums[j].name, val) {
          assert FirstEnum(prop.enums[..j + 1], val) == Some(j);
          EnumPrefix(prop.enums, j + 1, val);
          ret := setResult;
          search := Write(prop.id, prop.enums[j].value);
          return;
        }
        j := j + 1;
      }
      assert prop.enums[..j] == prop.enums;
      search := NoSuchValue(prop.id);
      return;
    }
    assert props[..i] == props;
    search := NoSuchProperty;
  }

  lemma PropertyPrefix(props: seq<Option<Property>>, n: nat, name: string)
    requires n <= |props| && FirstProperty(props[..n], name).Some?
    ensures FirstProperty(props, name) == FirstProperty(props[..n], name)
  {
  }

  lemma EnumPrefix(enums: seq<EnumEntry>, n: nat, val: string)
    requires n <= |enums| && FirstEnum(enums[..n], val).Some?
    ensures FirstEnum(enums, val) == FirstEnum(enums[..n], val)
  {
  }
}
