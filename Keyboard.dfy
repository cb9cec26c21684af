/*
 * KeyboardDeviceImp: a keyboard with no axes and one push-driven button per
 * key the keymapper knows. The keymapper (native key -> button descriptor)
 * is given as its list of entries in enumeration order; its contents are not
 * part of this model.
 */
module Keyboard {
  import opened Descriptors

  /** The number of names in the KeyCodes enumeration. */
  const KeyCodeNameCount := 193

  datatype KeymapEntry = KeymapEntry(key: int, desc: ButtonDescription)

  function AxesCount(): nat { 0 }

  function AxisImpDesc(): seq<AxisImpDescription> { [] }

  /** The button count reports the size of the key-code enumeration, not of the keymapper. */
  function ButtonCount(): nat { KeyCodeNameCount }

  /**
   * The reported button count is the size of the key-code enumeration,
   * whatever the keymapper holds: it agrees with the enumerated buttons
   * exactly when the keymapper has one entry per key-code name.
   */
  lemma ButtonCountIgnoresKeymap(keymap: seq<KeymapEntry>)
    ensures ButtonCount() == KeyCodeNameCount
    ensures ButtonCount() == |ButtonImpDesc(keymap)| <==> |keymap| == KeyCodeNameCount
  {
    ButtonImpDescSpec(keymap);
  }

  /** The keyboard reports no axes: a zero count and an empty enumeration. */
  lemma NoAxes()
    ensures AxesCount() == |AxisImpDesc()| == 0
  {
  }

  /** Insert `d` before the first entry with a larger id (stable). */
  function InsertById(d: ButtonDescription, s: seq<ButtonDescription>): (r: seq<ButtonDescription>)
    ensures multiset(r) == multiset(s) + multiset{d}
    decreases |s|
  {
    if s == [] then [d]
    else if d.id < s[0].id then [d] + s
    else
      assert s == [s[0]] + s[1..];
      [s[0]] + InsertById(d, s[1..])
  }

  /** `orderby Id`: the descriptors sorted by id, equal ids kept in enumeration order. */
  function OrderById(s: seq<ButtonDescription>): (r: seq<ButtonDescription>)
    decreases |s|
  {
    if s == [] then [] else InsertById(s[|s| - 1], OrderById(s[..|s| - 1]))
  }

  predicate SortedById(s: seq<ButtonDescription>)
  {
    forall i, j :: 0 <= i < j < |s| ==> s[i].id <= s[j].id
  }

  lemma {:induction false} InsertByIdSorted(d: ButtonDescription, s: seq<ButtonDescription>)
    requires SortedById(s)
    ensures SortedById(InsertById(d, s))
    decreases |s|
  {
    if s != [] && d.id >= s[0].id {
      InsertByIdSorted(d, s[1..]);
      var t := InsertById(d, s[1..]);
      assert multiset(t) == multiset(s[1..]) + multiset{d};
      forall x | x in t ensures s[0].id <= x.id {
        assert x in multiset(t);
        if x != d {
          assert x in multiset(s[1..]);
          assert x in s[1..];
        }
      }
    }
  }

  lemma MultisetOfInitLast<T>(s: seq<T>)
    requires s != []
    ensures multiset(s) == multiset(s[..|s| - 1]) + multiset{s[|s| - 1]}
  {
    assert s == s[..|s| - 1] + [s[|s| - 1]];
  }

  /** OrderById yields the same descriptors, sorted by id. */
  lemma {:induction false} OrderByIdSpec(s: seq<ButtonDescription>)
    ensures SortedById(OrderById(s))
    ensures multiset(OrderById(s)) == multiset(s)
    decreases |s|
  {
    if s != [] {
      var n := |s| - 1;
      var t := OrderById(s[..n]);
      OrderByIdSpec(s[..n]);
      InsertByIdSorted(s[n], t);
      assert OrderById(s) == InsertById(s[n], t);
      MultisetOfInitLast(s);
    }
  }

  function Descs(keymap: seq<KeymapEntry>): (r: seq<ButtonDescription>)
    ensures |r| == |keymap|
  {
    seq(|keymap|, i requires 0 <= i < |keymap| => keymap[i].desc)
  }

  /** One push-driven button per keymapper entry, ordered by id. */
  function ButtonImpDesc(keymap: seq<KeymapEntry>): (r: seq<ButtonImpDescription>)
  {
    var sorted := OrderById(Descs(keymap));
    seq(|sorted|, i requires 0 <= i < |sorted| => ButtonImpDescription(sorted[i], false))
  }

  /**
   * The button enumeration holds exactly the keymapper's descriptors (as a
   * multiset, via OrderById), ascending by id, none of them polled.
   */
  lemma ButtonImpDescSpec(keymap: seq<KeymapEntry>)
    ensures |ButtonImpDesc(keymap)| == |keymap|
    ensures multiset(OrderById(Descs(keymap))) == multiset(Descs(keymap))
    ensures forall i :: 0 <= i < |keymap| ==>
              ButtonImpDesc(keymap)[i] == ButtonImpDescription(OrderById(Descs(keymap))[i], false)
    ensures forall i, j :: 0 <= i < j < |keymap| ==>
              ButtonImpDesc(keymap)[i].buttonDesc.id <= ButtonImpDesc(keymap)[j].buttonDesc.id
  {
    var sorted := OrderById(Descs(keymap));
    OrderByIdSpec(Descs(keymap));
    assert |sorted| == |keymap| by {
      assert |multiset(sorted)| == |multiset(Descs(keymap))|;
    }
  }

  /** The keymapper's TryGetValue: the descriptor of the first entry for `key`. */
  function TryGetValue(keymap: seq<KeymapEntry>, key: int): (r: Option<ButtonDescription>)
    ensures r.Some? <==> exists i :: 0 <= i < |keymap| && keymap[i].key == key
    ensures r.Some? ==> exists i :: 0 <= i < |keymap| && keymap[i].key == key && keymap[i].desc == r.value &&
                                   forall j :: 0 <= j < i ==> keymap[j].key != key
    ensures r.Some? ==> r.value in Descs(keymap)
    decreases |keymap|
  {
    if keymap == [] then None
    else if keymap[0].key == key then
      assert Descs(keymap)[0] == keymap[0].desc;
      Some(keymap[0].desc)
    else
      var r := TryGetValue(keymap[1..], key);
      assert r.Some? ==> r.value in Descs(keymap[1..]) && Descs(keymap[1..]) == Descs(keymap)[1..];
      assert r.Some? ==> exists i :: 0 <= i < |keymap| && keymap[i].key == key && keymap[i].desc == r.value &&
                                     forall j :: 0 <= j < i ==> keymap[j].key != key by {
        if r.Some? {
          var i :| 0 <= i < |keymap[1..]| && keymap[1..][i].key == key && keymap[1..][i].desc == r.value &&
                   forall j :: 0 <= j < i ==> keymap[1..][j].key != key;
          assert keymap[i + 1] == keymap[1..][i];
          forall j | 0 <= j < i + 1 ensures keymap[j].key != key {
            if j > 0 { assert keymap[j] == keymap[1..][j - 1]; }
          }
        }
      }
      assert (exists i :: 0 <= i < |keymap[1..]| && keymap[1..][i].key == key) ==>
             (exists i :: 0 <= i < |keymap| && keymap[i].key == key);
      assert (exists i :: 0 <= i < |keymap| && keymap[i].key == key) ==>
             (exists i :: 0 <= i < |keymap[1..]| && keymap[1..][i].key == key);
      r
  }

  /**
   * The event raised for a window key event: only keys the keymapper knows
   * raise one, only while a listener is attached, and it names the
   * descriptor the keymapper holds for that key.
   */
  function KeyEvent(hasListener: bool, keymap: seq<KeymapEntry>, key: int, pressed: bool): (r: Option<ButtonValueChangedArgs>)
    ensures r.Some? <==> hasListener && exists i :: 0 <= i < |keymap| && keymap[i].key == key
    ensures r.Some? ==> r.value.pressed == pressed
    ensures r.Some? ==> exists i :: 0 <= i < |keymap| && keymap[i].key == key && keymap[i].desc == r.value.button &&
                                   forall j :: 0 <= j < i ==> keymap[j].key != key
    ensures r.Some? ==> r.value.button in multiset(Descs(keymap))
  {
    if hasListener then
      match TryGetValue(keymap, key)
      case Some(d) => Some(ButtonValueChangedArgs(pressed, d))
      case None => None
    else None
  }

  /** Key down raises a pressed event. */
  function OnKeyDown(hasListener: bool, keymap: seq<KeymapEntry>, key: int): Option<ButtonValueChangedArgs>
  {
    KeyEvent(hasListener, keymap, key, true)
  }

  /** Key up raises a released event. */
  function OnKeyUp(hasListener: bool, keymap: seq<KeymapEntry>, key: int): Option<ButtonValueChangedArgs>
  {
    KeyEvent(hasListener, keymap, key, false)
  }

  /** The keyboard has no axes: every axis poll is refused. */
  function GetAxis(axisId: int): (r: Result<real>)
    ensures r == Failure(UnsupportedAxis(axisId))
  {
    Failure(UnsupportedAxis(axisId))
  }

  /** Keyboard buttons are push-driven only: every button poll is refused. */
  function GetButton(buttonId: int): (r: Result<bool>)
    ensures r == Failure(UnsupportedButton(buttonId))
  {
    Failure(UnsupportedButton(buttonId))
  }

  function Info(keymap: seq<KeymapEntry>): DeviceImpInfo
  {
    DeviceImpInfo(Keyboard, AxisImpDesc(), ButtonImpDesc(keymap))
  }
}
