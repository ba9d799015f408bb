/** The attribute map (`XmlAttributes`) that the SAX loaders of levels,
    worlds and savegames collect from `<property name=".." value=".."/>`
    elements, and the SAX events they receive. `XmlAttributes` itself
    (tsc/src/core/xml_attributes.cpp) is not part of this model: it is taken
    to be a `std::map` from name to text, where `fetch` falls back to a
    default for a missing key, `retrieve` fails for a missing key, and
    `relocate_image` replaces an image attribute equal to the old path. */
module XmlAttributes {
  import opened Common
  import opened PropertyHelper

  type Attributes = map<String, String>

  /** One SAX callback: an opening tag with its attributes in document
      order, a closing tag, or character data. */
  datatype SaxEvent =
    | StartElement(name: String, attrs: seq<(String, String)>)
    | EndElement(name: String)
    | Characters(text: String)

  /** `attributes[key]` read as a value: the text, or "" when missing. */
  function Get(a: Attributes, key: String): String
  {
    if key in a then a[key] else []
  }

  /** `fetch<int>(key, default)`. */
  function FetchInt(a: Attributes, key: String, default: int): (r: int)
    ensures key !in a ==> r == default
    ensures key in a ==> r == StringToInt(a[key])
  {
    if key in a then StringToInt(a[key]) else default
  }

  /** `fetch<bool>(key, default)`. */
  function FetchBool(a: Attributes, key: String, default: bool): (r: bool)
    ensures key !in a ==> r == default
    ensures key in a ==> r == StringToBool(a[key])
  {
    if key in a then StringToBool(a[key]) else default
  }

  /** `fetch<std::string>(key, default)`. */
  function FetchString(a: Attributes, key: String, default: String): (r: String)
    ensures key !in a ==> r == default
    ensures key in a ==> r == a[key]
  {
    if key in a then a[key] else default
  }

  /** `fetch<float>(key, default)`; `toFloat` is `string_to_float`. */
  function FetchFloat(a: Attributes, key: String, default: real, toFloat: String -> real): (r: real)
    ensures key !in a ==> r == default
    ensures key in a ==> r == toFloat(a[key])
  {
    if key in a then toFloat(a[key]) else default
  }

  /** `retrieve<int>(key)`: `None` where the source throws. */
  function RetrieveInt(a: Attributes, key: String): (r: Option<int>)
    ensures r.Some? <==> key in a
    ensures r.Some? ==> r.value == StringToInt(a[key])
  {
    if key in a then Some(StringToInt(a[key])) else None
  }

  /** `retrieve<bool>(key)`: `None` where the source throws. */
  function RetrieveBool(a: Attributes, key: String): (r: Option<bool>)
    ensures r.Some? <==> key in a
    ensures r.Some? ==> r.value == StringToBool(a[key])
  {
    if key in a then Some(StringToBool(a[key])) else None
  }

  /** `relocate_image(from, to)` on the attribute `key`. */
  function RelocateImage(a: Attributes, from: String, to: String, key: String): (r: Attributes)
    ensures r.Keys == a.Keys
    ensures forall k :: k in a && k != key ==> r[k] == a[k]
  {
    if key in a && a[key] == from then a[key := to] else a
  }

  /** The text of the first of `keys` that is present (the
      `if exists(..) .. else if exists(..) .. else [..]` chains of the
      loaders), "" when none is. */
  function FirstPresent(a: Attributes, keys: seq<String>): String
  {
    if keys == [] then []
    else if keys[0] in a then a[keys[0]]
    else FirstPresent(a, keys[1..])
  }

  /** The first present key decides, whatever the later keys hold. */
  lemma {:induction false} FirstPresentIsFirst(a: Attributes, keys: seq<String>, i: int)
    requires 0 <= i < |keys| && keys[i] in a
    requires forall j :: 0 <= j < i ==> keys[j] !in a
    ensures FirstPresent(a, keys) == a[keys[i]]
  {
    if i > 0 {
      assert keys[0] !in a;
      FirstPresentIsFirst(a, keys[1..], i - 1);
    }
  }

  /** With none of the keys present the text is empty. */
  lemma {:induction false} FirstPresentNone(a: Attributes, keys: seq<String>)
    requires forall j :: 0 <= j < |keys| ==> keys[j] !in a
    ensures FirstPresent(a, keys) == []
  {
    if keys != [] {
      assert keys[0] !in a;
      FirstPresentNone(a, keys[1..]);
    }
  }

  /** The `<property>` tag, in either spelling. */
  predicate IsPropertyTag(name: String)
  {
    name == "property" || name == "Property"
  }

  /** The attribute names that give the key (`forName`) or the value:
      `name` and `value`, and with `capitals` also `Name` and `Value`
      (the level loader reads only the lower-case spellings). */
  predicate AttrMatches(n: String, forName: bool, capitals: bool)
  {
    if forName then n == "name" || (capitals && n == "Name")
    else n == "value" || (capitals && n == "Value")
  }

  /** The text of the last attribute of the kind, or "" when there is none. */
  function LastAttr(attrs: seq<(String, String)>, forName: bool, capitals: bool): String
  {
    if attrs == [] then []
    else if AttrMatches(attrs[|attrs| - 1].0, forName, capitals) then attrs[|attrs| - 1].1
    else LastAttr(attrs[..|attrs| - 1], forName, capitals)
  }

  /** The last occurrence of a `name`/`Name` (or `value`/`Value`)
      attribute wins. */
  lemma {:induction false} LastAttrWins(attrs: seq<(String, String)>, forName: bool, capitals: bool, i: int)
    requires 0 <= i < |attrs| && AttrMatches(attrs[i].0, forName, capitals)
    requires forall j :: i < j < |attrs| ==> !AttrMatches(attrs[j].0, forName, capitals)
    ensures LastAttr(attrs, forName, capitals) == attrs[i].1
  {
    if i < |attrs| - 1 {
      var front := attrs[..|attrs| - 1];
      assert forall j :: i < j < |front| ==> front[j] == attrs[j];
      LastAttrWins(front, forName, capitals, i);
    }
  }

  /** Without such an attribute the key (or value) is empty. */
  lemma {:induction false} LastAttrAbsent(attrs: seq<(String, String)>, forName: bool, capitals: bool)
    requires forall j :: 0 <= j < |attrs| ==> !AttrMatches(attrs[j].0, forName, capitals)
    ensures LastAttr(attrs, forName, capitals) == []
  {
    if attrs != [] {
      var front := attrs[..|attrs| - 1];
      assert forall j :: 0 <= j < |front| ==> front[j] == attrs[j];
      LastAttrAbsent(front, forName, capitals);
    }
  }

  /** The attribute scan of `on_start_element`: later name and value
      attributes replace earlier ones; a missing one is empty. */
  method ScanAttributes(attrs: seq<(String, String)>, capitals: bool) returns (key: String, value: String)
    ensures key == LastAttr(attrs, true, capitals)
    ensures value == LastAttr(attrs, false, capitals)
  {
    key, value := [], [];
    for i := 0 to |attrs|
      invariant key == LastAttr(attrs[..i], true, capitals)
      invariant value == LastAttr(attrs[..i], false, capitals)
    {
      var (n, text) := attrs[i];
      assert attrs[..i + 1][..i] == attrs[..i];
      if n == "name" || (capitals && n == "Name") {
        key := text;
      } else if n == "value" || (capitals && n == "Value") {
        value := text;
      }
    }
    assert attrs[..|attrs|] == attrs;
  }

  /** Entries sorted strictly by key, as a `std::map` is walked. */
  predicate SortedByKey(r: seq<(String, String)>)
  {
    forall i, j :: 0 <= i < j < |r| ==> Less(r[i].0, r[j].0)
  }

  /** Inserting an entry with a new key into a sorted list. */
  function InsertByKey(r: seq<(String, String)>, e: (String, String)): (t: seq<(String, String)>)
    requires SortedByKey(r) && forall q :: q in r ==> q.0 != e.0
    ensures SortedByKey(t) && |t| == |r| + 1
    ensures forall q :: q in t <==> q in r || q == e
  {
    if r == [] then [e]
    else if Less(e.0, r[0].0) then
      forall k | 0 < k < |r| ensures Less(e.0, r[k].0) {
        LessTransitive(e.0, r[0].0, r[k].0);
      }
      [e] + r
    else
      LessTotal(e.0, r[0].0);
      var rest := InsertByKey(r[1..], e);
      forall k | 0 <= k < |rest| ensures Less(r[0].0, rest[k].0) {
        assert rest[k] in rest;
        if rest[k] != e {
          var j :| 0 <= j < |r[1..]| && r[1..][j] == rest[k];
          assert r[j + 1] == rest[k];
        }
      }
      [r[0]] + rest
  }

  /** The entries of an attribute map in the order a `std::map` iterator
      visits them: each entry once, by increasing key. */
  method Entries(a: Attributes) returns (r: seq<(String, String)>)
    ensures SortedByKey(r) && |r| == |a|
    ensures forall k, v :: (k, v) in r <==> k in a && a[k] == v
  {
    var keys := a.Keys;
    r := [];
    while keys != {}
      invariant keys <= a.Keys
      invariant SortedByKey(r) && |r| + |keys| == |a|
      invariant forall k, v :: (k, v) in r <==> k in a.Keys - keys && a[k] == v
      decreases |keys|
    {
      var k :| k in keys;
      r := InsertByKey(r, (k, a[k]));
      keys := keys - {k};
    }
  }

  /** `string_to_float` and `float_to_string`, which are not part of this
      model. */
  datatype FloatText = FloatText(toFloat: String -> real, fromFloat: real -> String)

  /** `attributes[key]` as a reading: a missing key is inserted empty. */
  function Touch(a: Attributes, key: String): (r: Attributes)
    ensures r.Keys == a.Keys + {key}
    ensures r[key] == Get(a, key)
    ensures forall k :: k in a ==> r[k] == a[k]
  {
    if key in a then a else a[key := []]
  }

  /** `attributes[key] = float_to_string(attributes.retrieve<float>(key) - 600)`
      when the key is present: the loaders' migration of files that measured
      y from the bottom of a 600 pixel screen. */
  function ShiftUp(a: Attributes, key: String, conv: FloatText): (r: Attributes)
    ensures r.Keys == a.Keys
    ensures forall k :: k in a && k != key ==> r[k] == a[k]
    ensures key in a ==> r[key] == conv.fromFloat(conv.toFloat(a[key]) - 600.0)
  {
    if key in a then a[key := conv.fromFloat(conv.toFloat(a[key]) - 600.0)] else a
  }

}
