/** The headers of pkg/tus/common.go: Upload-Metadata, Upload-Concat and the id in a path. */
module TusHeaders {
  import opened Basics
  import opened TextCodec

  // ----- strings -----

  /** unicode.IsSpace. */
  predicate IsSpace(c: char)
  {
    var n := c as int;
    9 <= n <= 13 || n == 32 || n == 0x85 || n == 0xa0 || n == 0x1680 || 0x2000 <= n <= 0x200a
    || n == 0x2028 || n == 0x2029 || n == 0x202f || n == 0x205f || n == 0x3000
  }

  /** strings.Split at one character. */
  function Split(s: string, c: char): (r: seq<string>)
    ensures r != []
  {
    if s == "" then [""]
    else
      var rest := Split(s[1..], c);
      if s[0] == c then [""] + rest else [[s[0]] + rest[0]] + rest[1..]
  }

  lemma {:induction false} SplitParts(s: string, c: char)
    ensures forall i :: 0 <= i < |Split(s, c)| ==> c !in Split(s, c)[i]
    ensures forall i, x :: 0 <= i < |Split(s, c)| && x in Split(s, c)[i] ==> x in s
    ensures c !in s ==> Split(s, c) == [s]
  {
    if s == "" {
    } else {
      SplitParts(s[1..], c);
      assert s == [s[0]] + s[1..];
    }
  }

  lemma {:induction false} SplitFirst(a: string, c: char, b: string)
    requires c !in a
    ensures Split(a + [c] + b, c) == [a] + Split(b, c)
  {
    if a == "" {
      assert (a + [c] + b)[1..] == b;
    } else {
      SplitFirst(a[1..], c, b);
      assert (a + [c] + b)[1..] == a[1..] + [c] + b;
      assert [a[0]] + a[1..] == a;
    }
  }

  function TrimLeft(s: string): string
  {
    if s == "" || !IsSpace(s[0]) then s else TrimLeft(s[1..])
  }

  function TrimRight(s: string): string
  {
    if s == "" || !IsSpace(s[|s| - 1]) then s else TrimRight(s[..|s| - 1])
  }

  /** strings.TrimSpace. */
  function Trim(s: string): string
  {
    TrimRight(TrimLeft(s))
  }

  lemma {:induction false} TrimRightEnd(s: string)
    ensures TrimRight(s) <= s
    ensures TrimRight(s) != "" ==> !IsSpace(TrimRight(s)[|TrimRight(s)| - 1])
  {
    if s == "" || !IsSpace(s[|s| - 1]) {
    } else {
      TrimRightEnd(s[..|s| - 1]);
    }
  }

  lemma {:induction false} TrimLeftEnd(s: string)
    ensures forall x :: x in TrimLeft(s) ==> x in s
    ensures TrimLeft(s) != "" ==> !IsSpace(TrimLeft(s)[0])
  {
    if s == "" || !IsSpace(s[0]) {
    } else {
      TrimLeftEnd(s[1..]);
    }
  }

  /** A trimmed string neither begins nor ends with a blank, and has no new characters. */
  lemma TrimEnds(s: string)
    ensures forall x :: x in Trim(s) ==> x in s
    ensures Trim(s) != "" ==> !IsSpace(Trim(s)[0]) && !IsSpace(Trim(s)[|Trim(s)| - 1])
  {
    TrimLeftEnd(s);
    TrimRightEnd(TrimLeft(s));
  }

  /** Every element with the separator behind it. */
  function Lines(elements: seq<string>, c: char): string
  {
    if elements == [] then "" else elements[0] + [c] + Lines(elements[1..], c)
  }

  function Chop(s: string): string
    requires s != ""
  {
    s[..|s| - 1]
  }

  lemma {:induction false} LinesMore(elements: seq<string>, c: char, more: string)
    ensures Lines(elements + [more], c) == Lines(elements, c) + more + [c]
  {
    if elements == [] {
      assert [more][1..] == [];
    } else {
      assert (elements + [more])[1..] == elements[1..] + [more];
      LinesMore(elements[1..], c, more);
    }
  }

  lemma ChopLast(a: string, c: char, b: string)
    ensures Chop(a + [c]) == a
    ensures b != "" ==> Chop(a + [c] + b) == a + [c] + Chop(b)
  {}

  /** Without its last separator, a list of elements is split into those elements. */
  lemma {:induction false} SplitLines(elements: seq<string>, c: char)
    requires elements != [] && forall i :: 0 <= i < |elements| ==> c !in elements[i]
    ensures Lines(elements, c) != "" && Split(Chop(Lines(elements, c)), c) == elements
  {
    var first, rest := elements[0], elements[1..];
    assert elements == [first] + rest;
    var tail := Lines(rest, c);
    ChopLast(first, c, tail);
    if rest == [] {
      SplitParts(first, c);
      hide Split, Lines;
      assert first + [c] + "" == first + [c];
    } else {
      SplitLines(rest, c);
      hide Split, Lines;
      SplitFirst(first, c, Chop(tail));
    }
  }

  /** Splitting loses nothing. */
  lemma {:induction false} SplitJoins(s: string, c: char)
    ensures Lines(Split(s, c), c) == s + [c]
  {
    if s == "" {
      assert [""][1..] == [];
    } else {
      SplitJoins(s[1..], c);
      var rest := Split(s[1..], c);
      if s[0] == c {
        assert ([""] + rest)[1..] == rest;
        assert s + [c] == [c] + (s[1..] + [c]);
      } else {
        var first := [s[0]] + rest[0];
        assert ([first] + rest[1..])[1..] == rest[1..];
        assert s + [c] == [s[0]] + (s[1..] + [c]);
      }
    }
  }

  predicate AllSpace(s: string)
  {
    forall i :: 0 <= i < |s| ==> IsSpace(s[i])
  }

  /** Trimming takes away white space at both ends, and nothing else. */
  lemma TrimTakes(s: string) returns (a: string, b: string)
    ensures s == a + Trim(s) + b && AllSpace(a) && AllSpace(b)
  {
    a := TrimLeftTakes(s);
    b := TrimRightTakes(TrimLeft(s));
  }

  lemma {:induction false} TrimLeftTakes(s: string) returns (a: string)
    ensures s == a + TrimLeft(s) && AllSpace(a)
  {
    if s == "" || !IsSpace(s[0]) {
      a := "";
    } else {
      var rest := TrimLeftTakes(s[1..]);
      a := [s[0]] + rest;
    }
  }

  lemma {:induction false} TrimRightTakes(s: string) returns (b: string)
    ensures s == TrimRight(s) + b && AllSpace(b)
  {
    if s == "" || !IsSpace(s[|s| - 1]) {
      b := "";
    } else {
      var rest := TrimRightTakes(s[..|s| - 1]);
      b := rest + [s[|s| - 1]];
    }
  }

  // ----- Upload-Metadata -----

  type Meta = map<string, Bytes>

  /** One element of the header; None when it is passed over. */
  function ParseElement(element: string): Option<(string, Bytes)>
  {
    var parts := Split(Trim(element), ' ');
    if |parts| > 2 || parts[0] == "" then None
    else if |parts| == 1 then Some((parts[0], []))
    else
      var value := Decode64(parts[1]);
      if value.None? then None else Some((parts[0], value.value))
  }

  function Collect(elements: seq<string>): Meta
  {
    if elements == [] then map[]
    else
      var n := |elements| - 1;
      var e := ParseElement(elements[n]);
      if e.None? then Collect(elements[..n]) else Collect(elements[..n])[e.value.0 := e.value.1]
  }

  function ParsedMetadata(header: string): Meta
  {
    Collect(Split(header, ','))
  }

  /** A trimmed element is a key, or a key, one blank, and the value in base64; the key is not empty. */
  ghost predicate Reads(element: string, key: string, value: Bytes)
  {
    && key != "" && ' ' !in key
    && ((Trim(element) == key && value == [])
        || exists code :: Trim(element) == key + " " + code && ' ' !in code && Decode64(code) == Some(value))
  }

  lemma ElementMeans(element: string, key: string, value: Bytes)
    ensures ParseElement(element) == Some((key, value)) <==> Reads(element, key, value)
  {
    var t := Trim(element);
    hide Trim, Decode64;
    if ParseElement(element) == Some((key, value)) {
      SplitParts(t, ' ');
      if |Split(t, ' ')| == 1 {
        OnePart(t, ' ');
      } else {
        TwoParts(t, ' ');
        assert t == key + " " + Split(t, ' ')[1];
      }
    }
    if Reads(element, key, value) {
      if t == key && value == [] {
        SplitParts(t, ' ');
      } else {
        var code :| t == key + " " + code && ' ' !in code && Decode64(code) == Some(value);
        SplitFirst(key, ' ', code);
        SplitParts(code, ' ');
        assert key + [' '] + code == t;
      }
    }
  }

  /** Element i reads as the key with the value, and no later element as the key. */
  ghost predicate LastToRead(elements: seq<string>, i: nat, key: string, value: Bytes)
  {
    i < |elements| && Reads(elements[i], key, value) && forall j, other :: i < j < |elements| ==> !Reads(elements[j], key, other)
  }

  /** What the header says of a key: the last element that reads as the key decides, and the others are passed over. */
  lemma {:induction false} CollectMeans(elements: seq<string>, key: string, value: Bytes)
    ensures key in Collect(elements) && Collect(elements)[key] == value <==> exists i: nat :: LastToRead(elements, i, key, value)
  {
    if elements == [] {
    } else {
      var n := |elements| - 1;
      CollectMeans(elements[..n], key, value);
      hide Reads;
      forall k: string, v: Bytes
        ensures ParseElement(elements[n]) == Some((k, v)) <==> Reads(elements[n], k, v)
      {
        ElementMeans(elements[n], k, v);
      }
      hide ParseElement;
      LastOfMore(elements, key, value);
    }
  }

  lemma LastOfMore(elements: seq<string>, key: string, value: Bytes)
    requires elements != []
    ensures
      var n := |elements| - 1;
      (exists i: nat :: LastToRead(elements, i, key, value)) <==>
      Reads(elements[n], key, value)
      || ((forall other :: !Reads(elements[n], key, other)) && exists i: nat :: LastToRead(elements[..n], i, key, value))
  {
    hide Reads;
    var n := |elements| - 1;
    assert forall j :: 0 <= j < n ==> elements[..n][j] == elements[j];
    if Reads(elements[n], key, value) {
      assert LastToRead(elements, n, key, value);
    }
    if i: nat :| LastToRead(elements[..n], i, key, value) && forall other :: !Reads(elements[n], key, other) {
      assert LastToRead(elements, i, key, value);
    }
    if i: nat :| LastToRead(elements, i, key, value) {
      if i < n {
        assert LastToRead(elements[..n], i, key, value);
      }
    }
  }

  /** The map says of every key what the last element that reads as that key says. */
  ghost predicate SaysOf(header: string, meta: Meta)
  {
    forall key, value :: Holds(meta, key, value) <==> Decides(Split(header, ','), key, value)
  }

  predicate Holds(meta: Meta, key: string, value: Bytes)
  {
    key in meta && meta[key] == value
  }

  ghost predicate Decides(elements: seq<string>, key: string, value: Bytes)
  {
    exists i: nat :: LastToRead(elements, i, key, value)
  }

  lemma HeaderSays(header: string)
    ensures SaysOf(header, ParsedMetadata(header))
  {
    hide Collect, LastToRead, Split;
    forall key: string, value: Bytes
      ensures Holds(ParsedMetadata(header), key, value) <==> Decides(Split(header, ','), key, value)
    {
      CollectMeans(Split(header, ','), key, value);
    }
  }

  method ParseMetadataHeader(header: string) returns (meta: Meta)
    ensures meta == ParsedMetadata(header)
    ensures SaysOf(header, meta)
  {
    HeaderSays(header);
    hide SaysOf;
    meta := map[];
    var elements := Split(header, ',');
    var i := 0;
    while i < |elements|
      invariant 0 <= i <= |elements| && meta == Collect(elements[..i])
    {
      assert elements[..i + 1][..i] == elements[..i];
      var element := Trim(elements[i]);
      var parts := Split(element, ' ');
      i := i + 1;
      if |parts| > 2 {
        continue;
      }
      var key := parts[0];
      if key == "" {
        continue;
      }
      var value := [];
      if |parts| == 2 {
        var dec := Decode64(parts[1]);
        if dec.None? {
          continue;
        }
        value := dec.value;
      }
      meta := meta[key := value];
    }
    assert elements[..i] == elements;
  }

  function Element(meta: Meta, key: string): string
    requires key in meta
  {
    key + [' '] + Encode64(meta[key])
  }

  function Elements(meta: Meta, order: seq<string>): (r: seq<string>)
    requires forall i :: 0 <= i < |order| ==> order[i] in meta
    ensures |r| == |order| && forall i :: 0 <= i < |order| ==> r[i] == Element(meta, order[i])
  {
    seq(|order|, i requires 0 <= i < |order| => Element(meta, order[i]))
  }

  /** An order in which range may visit the keys of a map. */
  ghost predicate IsOrder(meta: Meta, order: seq<string>)
  {
    && (forall i :: 0 <= i < |order| ==> order[i] in meta)
    && (forall key :: key in meta ==> key in order)
    && (forall i, j :: 0 <= i < j < |order| ==> order[i] != order[j])
  }

  function Serialized(meta: Meta, order: seq<string>): string
    requires forall i :: 0 <= i < |order| ==> order[i] in meta
  {
    var header := Lines(Elements(meta, order), ',');
    if header == "" then "" else Chop(header)
  }

  lemma LinesNone(c: char)
    ensures Lines([], c) == ""
  {}

  lemma Appended(header: string, meta: Meta, order: seq<string>, key: string)
    requires key in meta
    requires forall i :: 0 <= i < |order| ==> order[i] in meta
    requires header == Lines(Elements(meta, order), ',')
    ensures header + key + " " + Encode64(meta[key]) + "," == Lines(Elements(meta, order + [key]), ',')
  {
    LinesMore(Elements(meta, order), ',', Element(meta, key));
    ElementsMore(meta, order, key);
    Pieces(header, key, Encode64(meta[key]));
    hide Encode64, Lines, Elements;
  }

  lemma ElementsMore(meta: Meta, order: seq<string>, key: string)
    requires key in meta && forall i :: 0 <= i < |order| ==> order[i] in meta
    ensures Elements(meta, order + [key]) == Elements(meta, order) + [Element(meta, key)]
  {
    hide Element;
  }

  lemma Pieces(header: string, key: string, code: string)
    ensures header + key + " " + code + "," == header + (key + [' '] + code) + [',']
  {}

  /** SerializeMetadataHeader: the keys come in any order. */
  /** Elements are set apart by one comma each. */
  lemma SerializedGrows(meta: Meta, order: seq<string>, key: string)
    requires (forall i :: 0 <= i < |order| ==> order[i] in meta) && key in meta
    ensures Serialized(meta, []) == ""
    ensures Serialized(meta, order + [key]) == Serialized(meta, order) + (if order == [] then "" else ",") + key + " " + Encode64(meta[key])
  {
    hide Encode64;
    ElementsMore(meta, order, key);
    LinesMore(Elements(meta, order), ',', Element(meta, key));
    LinesNone(',');
    var lines, e := Lines(Elements(meta, order), ','), Element(meta, key);
    if order == [] {
      assert Elements(meta, order) == [];
    } else {
      LinesEnd(Elements(meta, order), ',');
    }
    assert Chop(lines + e + [',']) == lines + e;
  }

  lemma LinesEnd(elements: seq<string>, c: char)
    requires elements != []
    ensures Lines(elements, c) != "" && Lines(elements, c) == Chop(Lines(elements, c)) + [c]
  {
    var n := |elements| - 1;
    assert elements == elements[..n] + [elements[n]];
    LinesMore(elements[..n], c, elements[n]);
  }

  method SerializeMetadataHeader(meta: Meta) returns (header: string, ghost order: seq<string>)
    ensures IsOrder(meta, order) && header == Serialized(meta, order)
    ensures ParsedMetadata(header) == meta <==> KeysOk(meta)
  {
    hide Encode64, Element, Elements, Lines, ParsedMetadata, KeysOk;
    assert Lines([], ',') == "" by { LinesNone(','); }
    header, order := "", [];
    var rest := meta.Keys;
    while rest != {}
      invariant rest <= meta.Keys && forall i :: 0 <= i < |order| ==> order[i] in meta && order[i] !in rest
      invariant forall key :: key in meta ==> key in rest || key in order
      invariant forall i, j :: 0 <= i < j < |order| ==> order[i] != order[j]
      invariant header == Lines(Elements(meta, order), ',')
      decreases |rest|
    {
      var key :| key in rest;
      Appended(header, meta, order, key);
      header := header + key + " " + Encode64(meta[key]) + ",";
      order := order + [key];
      rest := rest - {key};
    }
    if |header| > 0 {
      header := header[..|header| - 1];
    }
    MetadataRoundTrip(meta, order);
  }

  /** What a key must be for its element to be read back; a value that is empty leaves no trace behind the key. */
  predicate KeyOk(key: string, value: Bytes)
  {
    && key != "" && ',' !in key && ' ' !in key
    && !IsSpace(key[0]) && (value == [] ==> !IsSpace(key[|key| - 1]))
  }

  predicate KeysOk(meta: Meta)
  {
    forall key :: key in meta ==> KeyOk(key, meta[key])
  }

  lemma TrimOf(s: string, t: string)
    requires s != "" && !IsSpace(s[0]) && !IsSpace(s[|s| - 1])
    requires t == s || t == s + " "
    ensures Trim(t) == s
  {
    assert t[0] == s[0] && TrimLeft(t) == t;
    assert TrimRight(s) == s;
    if t != s {
      assert t[|t| - 1] == ' ' && t[..|t| - 1] == s;
      assert TrimRight(t) == TrimRight(t[..|t| - 1]);
    }
  }

  lemma ElementBack(key: string, value: Bytes)
    requires KeyOk(key, value)
    ensures ParseElement(key + [' '] + Encode64(value)) == Some((key, value))
    ensures ',' !in key + [' '] + Encode64(value)
  {
    EncodedIsPlain(value);
    Base64RoundTrip(value);
    var code := Encode64(value);
    var element := key + [' '] + code;
    SplitParts(code, ' ');
    SplitParts(key, ' ');
    hide Encode64, Decode64, Trim, IsSpace, Split;
    if value == [] {
      assert Encode64([]) == "" by { EncodeNone(); }
      assert element == key + " ";
      TrimOf(key, element);
    } else {
      assert !IsSpace(code[|code| - 1]) by { PlainNotSpace(code); }
      TrimOf(element, element);
      SplitFirst(key, ' ', code);
    }
    assert ',' !in code by { PlainNotComma(code); }
  }

  lemma EncodeNone()
    ensures Encode64([]) == ""
  {}

  lemma PlainNotSpace(s: string)
    requires Plain(s)
    ensures forall i :: 0 <= i < |s| ==> !IsSpace(s[i])
    ensures ' ' !in s
  {}

  lemma PlainNotComma(s: string)
    requires Plain(s)
    ensures ',' !in s
  {}

  lemma {:induction false} CollectElements(meta: Meta, order: seq<string>)
    requires KeysOk(meta) && forall i :: 0 <= i < |order| ==> order[i] in meta
    ensures
      var read := Collect(Elements(meta, order));
      && (forall key :: key in read <==> key in order)
      && (forall key :: key in read ==> key in meta && read[key] == meta[key])
  {
    if order == [] {
    } else {
      var front, key := order[..|order| - 1], order[|order| - 1];
      assert order == front + [key];
      CollectElements(meta, front);
      ElementBack(key, meta[key]);
      ElementsSplit(meta, order);
      hide Collect, Elements, Element, ParseElement, KeyOk, KeysOk;
      CollectMore(Elements(meta, front), Element(meta, key));
      assert Collect(Elements(meta, order)) == Collect(Elements(meta, front))[key := meta[key]];
      OneMore(Collect(Elements(meta, front)), meta, front, key);
    }
  }

  lemma ElementsSplit(meta: Meta, order: seq<string>)
    requires order != [] && forall i :: 0 <= i < |order| ==> order[i] in meta
    ensures Elements(meta, order) == Elements(meta, order[..|order| - 1]) + [Element(meta, order[|order| - 1])]
  {
    hide Element;
  }

  lemma CollectMore(elements: seq<string>, element: string)
    ensures
      var e := ParseElement(element);
      Collect(elements + [element]) == if e.None? then Collect(elements) else Collect(elements)[e.value.0 := e.value.1]
  {
    assert (elements + [element])[..|elements|] == elements;
  }

  lemma OneMore(read: Meta, meta: Meta, order: seq<string>, key: string)
    requires key in meta
    requires forall k :: k in read <==> k in order
    requires forall k :: k in order ==> k in meta
    requires forall k :: k in read ==> read[k] == meta[k]
    ensures forall k :: k in read[key := meta[key]] <==> k in order + [key]
    ensures forall k :: k in read[key := meta[key]] ==> k in meta && read[key := meta[key]][k] == meta[k]
  {}

  /** Keys and values that no header can give: they bound what can be read back. */
  lemma ElementKeys(element: string)
    requires ',' !in element && ParseElement(element).Some?
    ensures KeyOk(ParseElement(element).value.0, ParseElement(element).value.1)
  {
    var t := Trim(element);
    TrimEnds(element);
    SplitParts(t, ' ');
    assert IsSpace(' ');
    hide Trim, IsSpace;
    var parts := Split(t, ' ');
    if |parts| == 1 {
      OnePart(t, ' ');
    } else {
      TwoParts(t, ' ');
      hide Split, Decode64;
      assert t[0] == parts[0][0];
      assert t[|t| - 1] == if parts[1] == "" then ' ' else parts[1][|parts[1]| - 1];
      if Decode64(parts[1]) == Some([]) {
        NothingEncoded(parts[1]);
      }
    }
  }

  lemma {:induction false} OnePart(s: string, c: char)
    requires |Split(s, c)| == 1
    ensures Split(s, c)[0] == s
  {
    if s == "" {
    } else {
      OnePart(s[1..], c);
    }
  }

  lemma {:induction false} TwoParts(s: string, c: char)
    requires |Split(s, c)| == 2
    ensures s == Split(s, c)[0] + [c] + Split(s, c)[1]
  {
    if s[0] == c {
      OnePart(s[1..], c);
    } else {
      TwoParts(s[1..], c);
      assert s == [s[0]] + s[1..];
    }
  }

  /** Only line breaks decode to nothing. */
  lemma NothingEncoded(s: string)
    requires Decode64(s) == Some([])
    ensures s != "" ==> IsSpace(s[|s| - 1])
  {
    UnbrokenNone(s);
  }

  lemma {:induction false} UnbrokenNone(s: string)
    requires Unbroken(s) == ""
    ensures forall i :: 0 <= i < |s| ==> s[i] == '\n' || s[i] == '\r'
  {
    if s == "" {
    } else {
      UnbrokenNone(s[1..]);
    }
  }

  lemma {:induction false} CollectKeys(elements: seq<string>)
    requires forall i :: 0 <= i < |elements| ==> ',' !in elements[i]
    ensures KeysOk(Collect(elements))
  {
    if elements == [] {
    } else {
      var n := |elements| - 1;
      CollectKeys(elements[..n]);
      if ParseElement(elements[n]).Some? {
        ElementKeys(elements[n]);
      }
      hide ParseElement, KeyOk;
    }
  }

  /**
   Parse takes Serialize back, for every order of the keys, exactly when every key is non-empty, has
   no comma and no blank in it, does not begin with white space, and does not end with white space
   where its value is empty.
   */
  lemma MetadataRoundTrip(meta: Meta, order: seq<string>)
    requires IsOrder(meta, order)
    ensures ParsedMetadata(Serialized(meta, order)) == meta <==> KeysOk(meta)
  {
    var header := Serialized(meta, order);
    SplitParts(header, ',');
    CollectKeys(Split(header, ','));
    if KeysOk(meta) {
      SerializedBack(meta, order);
    }
  }

  lemma SerializedBack(meta: Meta, order: seq<string>)
    requires IsOrder(meta, order) && KeysOk(meta)
    ensures ParsedMetadata(Serialized(meta, order)) == meta
  {
    if order == [] {
      NothingCollected();
    } else {
      var elements := Elements(meta, order);
      forall i | 0 <= i < |order|
        ensures ',' !in elements[i]
      {
        ElementBack(order[i], meta[order[i]]);
      }
      hide Element, Elements, Split, Collect, KeysOk, Lines, KeyOk, Chop;
      SplitLines(elements, ',');
      CollectElements(meta, order);
      SameMap(Collect(elements), meta, order);
    }
  }

  lemma SameMap(read: Meta, meta: Meta, order: seq<string>)
    requires IsOrder(meta, order) && forall key :: key in read <==> key in order
    requires forall key :: key in read ==> key in meta && read[key] == meta[key]
    ensures read == meta
  {}

  lemma NothingCollected()
    ensures Collect(Split("", ',')) == map[]
  {
    assert Split(Trim(""), ' ')[0] == "";
    assert [""][..0] == [];
  }

  // ----- ids in paths, and Upload-Concat -----

  datatype Error = NotFound | InvalidConcat

  /** The longest end of a string without a slash. */
  function LastSegment(s: string): (r: string)
    ensures '/' !in r
  {
    if s == "" || s[|s| - 1] == '/' then "" else LastSegment(s[..|s| - 1]) + [s[|s| - 1]]
  }

  /** extractIDFromPath: the last segment, with or without one slash behind it. */
  function ExtractID(url: string): (r: Result<string, Error>)
    ensures r.Ok? ==> r.value != "" && '/' !in r.value
  {
    var stem := if url != "" && url[|url| - 1] == '/' then url[..|url| - 1] else url;
    var segment := LastSegment(stem);
    if segment == "" then Err(NotFound) else Ok(segment)
  }

  lemma {:induction false} LastSegmentOf(prefix: string, id: string)
    requires prefix != "" && prefix[|prefix| - 1] == '/' && '/' !in id
    ensures LastSegment(prefix + id) == id
  {
    if id == "" {
      assert prefix + id == prefix;
    } else {
      var n := |id| - 1;
      assert (prefix + id)[..|prefix + id| - 1] == prefix + id[..n];
      assert id[n] in id;
      LastSegmentOf(prefix, id[..n]);
    }
  }

  /** The id is found again behind any prefix that ends in a slash, and with a slash added. */
  lemma ExtractBack(prefix: string, id: string)
    requires prefix != "" && prefix[|prefix| - 1] == '/' && id != "" && '/' !in id
    ensures ExtractID(prefix + id) == Ok(id) && ExtractID(prefix + id + "/") == Ok(id)
  {
    LastSegmentOf(prefix, id);
    assert (prefix + id + "/")[..|prefix + id|] == prefix + id;
    assert id[|id| - 1] in id;
  }

  /** Exactly when an id is found: it stands alone or behind a slash, at the end or before one slash at the end. */
  ghost predicate IdOf(url: string, id: string, prefix: string)
  {
    && id != "" && '/' !in id && (prefix == "" || prefix[|prefix| - 1] == '/')
    && (url == prefix + id || url == prefix + id + "/")
  }

  lemma ExtractMeans(url: string, id: string)
    ensures ExtractID(url) == Ok(id) <==> exists prefix :: IdOf(url, id, prefix)
  {
    if ExtractID(url) == Ok(id) {
      var prefix := ExtractedOf(url, id);
    }
    if prefix :| IdOf(url, id, prefix) {
      hide IdOf, ExtractID;
      OfExtracted(url, id, prefix);
    }
  }

  lemma ExtractedOf(url: string, id: string) returns (prefix: string)
    requires ExtractID(url) == Ok(id)
    ensures IdOf(url, id, prefix)
  {
    var stem := if url != "" && url[|url| - 1] == '/' then url[..|url| - 1] else url;
    prefix := SegmentPrefix(stem);
    hide LastSegment;
    assert url != stem ==> url == stem + "/";
  }

  lemma OfExtracted(url: string, id: string, prefix: string)
    requires IdOf(url, id, prefix)
    ensures ExtractID(url) == Ok(id)
  {
    if prefix == "" {
      WholeSegment(id);
      hide LastSegment;
      assert prefix + id == id && (id + "/")[..|id|] == id;
      assert id[|id| - 1] in id;
    } else {
      ExtractBack(prefix, id);
      hide ExtractID;
    }
  }

  lemma {:induction false} SegmentPrefix(s: string) returns (prefix: string)
    ensures s == prefix + LastSegment(s) && (prefix == "" || prefix[|prefix| - 1] == '/')
  {
    if s == "" || s[|s| - 1] == '/' {
      prefix := s;
    } else {
      prefix := SegmentPrefix(s[..|s| - 1]);
    }
  }

  lemma {:induction false} WholeSegment(id: string)
    requires '/' !in id
    ensures LastSegment(id) == id
  {
    if id == "" {
    } else {
      assert id[|id| - 1] in id;
      WholeSegment(id[..|id| - 1]);
    }
  }

  datatype ConcatHeader = Absent | Partial | Final(ids: seq<string>) | Bad(error: Error)

  const FINAL := "final;"

  /** The ids of the list, from the left; blanks between URLs may repeat. */
  function ParseList(values: seq<string>): Result<seq<string>, Error>
  {
    if values == [] then Ok([])
    else
      var value := Trim(values[0]);
      if value == "" then ParseList(values[1..])
      else
        var id := ExtractID(value);
        if id.Err? then Err(id.error)
        else
          var rest := ParseList(values[1..]);
          if rest.Err? then rest else Ok([id.value] + rest.value)
  }

  function ParseConcat(header: string): ConcatHeader
  {
    if header == "" then Absent
    else if header == "partial" then Partial
    else if FINAL < header then
      var ids := ParseList(Split(header[|FINAL|..], ' '));
      if ids.Err? then Bad(ids.error) else if ids.value == [] then Bad(InvalidConcat) else Final(ids.value)
    else Bad(InvalidConcat)
  }

  /** One value of the list, and a list cut anywhere: the ids come in order, and one value without an id spoils the list. */
  lemma {:induction false} ListOfTwo(values: seq<string>, more: seq<string>)
    ensures ParseList(values + more).Ok? <==> ParseList(values).Ok? && ParseList(more).Ok?
    ensures ParseList(values).Ok? && ParseList(more).Ok? ==>
              ParseList(values + more) == Ok(ParseList(values).value + ParseList(more).value)
  {
    if values == [] {
      assert values + more == more;
      assert ParseList(more).Ok? ==> [] + ParseList(more).value == ParseList(more).value;
    } else {
      assert (values + more)[1..] == values[1..] + more && (values + more)[0] == values[0];
      hide Trim, ExtractID;
      ListOfTwo(values[1..], more);
      var rest, later := ParseList(values[1..]), ParseList(more);
      if rest.Ok? && later.Ok? {
        assert forall id :: [id] + (rest.value + later.value) == [id] + rest.value + later.value;
      }
    }
  }

  lemma ListOfOne(value: string)
    ensures ParseList([value]) ==
            if Trim(value) == "" then Ok([])
            else if ExtractID(Trim(value)).Ok? then Ok([ExtractID(Trim(value)).value]) else Err(NotFound)
  {
    hide Trim;
    assert [value][1..] == [] && ParseList([]) == Ok([]);
    assert forall id: string :: [id] + [] == [id];
  }

  /** Each outcome, exactly when. */
  lemma ConcatMeans(header: string)
    ensures ParseConcat(header) == Absent <==> header == ""
    ensures ParseConcat(header) == Partial <==> header == "partial"
    ensures
      var list := if "final;" < header then ParseList(Split(header[6..], ' ')) else Ok([]);
      && (forall ids :: ParseConcat(header) == Final(ids) <==> "final;" < header && list == Ok(ids) && ids != [])
      && (ParseConcat(header) == Bad(NotFound) <==> "final;" < header && list.Err?)
      && (ParseConcat(header) == Bad(InvalidConcat) <==> header != "" && header != "partial" && list == Ok([]))
  {
    ListErrs(if "final;" < header then Split(header[6..], ' ') else []);
    assert !("final;" < "partial") && !("final;" < "") by { assert "partial"[0] != "final;"[0]; }
    hide ParseList, Split;
  }

  lemma {:induction false} ListErrs(values: seq<string>)
    ensures ParseList(values).Err? ==> ParseList(values).error == NotFound
  {
    if values == [] {
    } else {
      hide Trim;
      ListErrs(values[1..]);
    }
  }

  /** parseConcat with its loop. */
  method ParseConcatHeader(header: string) returns (r: ConcatHeader)
    ensures r == ParseConcat(header)
    ensures r == Absent <==> header == ""
    ensures r == Partial <==> header == "partial"
    ensures
      var list := if "final;" < header then ParseList(Split(header[6..], ' ')) else Ok([]);
      && (r == Bad(NotFound) <==> "final;" < header && list.Err?)
      && (r.Final? <==> "final;" < header && list.Ok? && list.value != []) && (r.Final? ==> list == Ok(r.ids))
  {
    ConcatMeans(header);
    if |header| == 0 {
      return Absent;
    }
    if header == "partial" {
      return Partial;
    }
    var partialUploads := [];
    if FINAL <= header && |header| > |FINAL| {
      var list := Split(header[|FINAL|..], ' ');
      var i := 0;
      while i < |list|
        invariant 0 <= i <= |list|
        invariant ParseList(list).Ok? == ParseList(list[i..]).Ok?
        invariant ParseList(list).Ok? ==> ParseList(list).value == partialUploads + ParseList(list[i..]).value
        invariant ParseList(list).Err? ==> ParseList(list) == ParseList(list[i..])
      {
        assert list[i..][1..] == list[i + 1..];
        var value := Trim(list[i]);
        i := i + 1;
        if value == "" {
          continue;
        }
        var id := ExtractID(value);
        if id.Err? {
          return Bad(id.error);
        }
        partialUploads := partialUploads + [id.value];
      }
    }
    if |partialUploads| == 0 {
      return Bad(InvalidConcat);
    }
    return Final(partialUploads);
  }

  /** Config.validate: a base path that is not empty gets its slashes. */
  function BasePath(base: string, isAbs: bool): string
  {
    var closed := if base != "" && base[|base| - 1] != '/' then base + "/" else base;
    if !isAbs && closed != "" && closed[0] != '/' then "/" + closed else closed
  }

  /** The scheme and host of the request; whatever headers say, the scheme is http or https. */
  function Origin(https: bool, host: string): string
  {
    (if https then "https" else "http") + "://" + host
  }

  /** absFileURL. */
  function FileURL(base: string, isAbs: bool, https: bool, host: string, id: string): string
  {
    if isAbs then BasePath(base, isAbs) + id else Origin(https, host) + BasePath(base, isAbs) + id
  }

  function Prefix(base: string, isAbs: bool, https: bool, host: string): string
  {
    if isAbs then BasePath(base, isAbs) else Origin(https, host) + BasePath(base, isAbs)
  }

  /** A relative base path gets its slashes and the scheme and host of the request; an absolute one its last slash. */
  lemma PrefixExamples()
    ensures Prefix("files", false, true, "h") == "https://h/files/" && Prefix("/files/", false, false, "h") == "http://h/files/"
    ensures Prefix("https://c/f", true, false, "h") == "https://c/f/"
  {
    assert BasePath("files", false) == "/files/" && BasePath("/files/", false) == "/files/";
    assert Origin(true, "h") == "https://h" && Origin(false, "h") == "http://h";
  }

  function URLs(prefix: string, ids: seq<string>): (r: seq<string>)
    ensures |r| == |ids| && forall i :: 0 <= i < |ids| ==> r[i] == prefix + ids[i]
  {
    seq(|ids|, i requires 0 <= i < |ids| => prefix + ids[i])
  }

  /** HeadFile's Upload-Concat for a final upload: the last character is cut off. */
  function HeadConcat(prefix: string, ids: seq<string>): string
  {
    Chop(FINAL + Lines(URLs(prefix, ids), ' '))
  }

  /** The URLs are set apart by one blank each. */
  lemma HeadGrows(prefix: string, ids: seq<string>, id: string)
    ensures HeadConcat(prefix, [id]) == "final;" + prefix + id
    ensures ids != [] ==> HeadConcat(prefix, ids + [id]) == HeadConcat(prefix, ids) + " " + prefix + id
  {
    LinesNone(' ');
    LinesMore([], ' ', prefix + id);
    assert URLs(prefix, [id]) == [] + [prefix + id];
    assert Chop(FINAL + ("" + (prefix + id) + [' '])) == "final;" + prefix + id;
    if ids != [] {
      var urls := URLs(prefix, ids);
      assert URLs(prefix, ids + [id]) == urls + [prefix + id];
      LinesMore(urls, ' ', prefix + id);
      LinesEnd(urls, ' ');
      var lines := Lines(urls, ' ');
      assert Chop(FINAL + (lines + (prefix + id) + [' '])) == FINAL + Chop(lines) + " " + prefix + id;
      assert Chop(FINAL + lines) == FINAL + Chop(lines);
    }
  }

  method RenderConcat(base: string, isAbs: bool, https: bool, host: string, ids: seq<string>) returns (v: string)
    ensures v == HeadConcat(Prefix(base, isAbs, https, host), ids)
  {
    ghost var prefix := Prefix(base, isAbs, https, host);
    ghost var urls := URLs(prefix, ids);
    v := FINAL;
    var i := 0;
    LinesNone(' ');
    hide Lines, URLs;
    while i < |ids|
      invariant 0 <= i <= |ids| && v == FINAL + Lines(urls[..i], ' ')
    {
      LinesMore(urls[..i], ' ', urls[i]);
      Behind(FINAL, Lines(urls[..i], ' '), urls[i]);
      assert urls[..i + 1] == urls[..i] + [urls[i]];
      assert FileURL(base, isAbs, https, host, ids[i]) == urls[i];
      v := v + FileURL(base, isAbs, https, host, ids[i]) + " ";
      i := i + 1;
    }
    assert urls[..i] == urls;
    v := v[..|v| - 1];
  }

  lemma Behind(head: string, list: string, url: string)
    ensures head + list + url + " " == head + (list + url + [' '])
  {}

  predicate NoSpaces(s: string)
  {
    forall i :: 0 <= i < |s| ==> !IsSpace(s[i])
  }

  predicate IdsOk(ids: seq<string>)
  {
    forall i :: 0 <= i < |ids| ==> ids[i] != "" && '/' !in ids[i] && NoSpaces(ids[i])
  }

  lemma URLBack(prefix: string, id: string)
    requires prefix != "" && prefix[|prefix| - 1] == '/' && NoSpaces(prefix)
    requires id != "" && '/' !in id && NoSpaces(id)
    ensures ' ' !in prefix + id && Trim(prefix + id) == prefix + id != "" && ExtractID(prefix + id) == Ok(id)
  {
    var url := prefix + id;
    assert forall i :: 0 <= i < |url| ==> !IsSpace(url[i]);
    TrimOf(url, url);
    ExtractBack(prefix, id);
  }

  lemma {:induction false} ListBack(prefix: string, ids: seq<string>)
    requires prefix != "" && prefix[|prefix| - 1] == '/' && NoSpaces(prefix) && IdsOk(ids)
    ensures ParseList(URLs(prefix, ids)) == Ok(ids)
    ensures forall i :: 0 <= i < |ids| ==> ' ' !in URLs(prefix, ids)[i]
  {
    if ids == [] {
    } else {
      IdsSplit(ids);
      hide ParseList, Trim, ExtractID, NoSpaces, IdsOk, URLs;
      ListBack(prefix, ids[1..]);
      URLBack(prefix, ids[0]);
      ParseMore(prefix + ids[0], ids[0], URLs(prefix, ids[1..]));
      assert URLs(prefix, ids) == [prefix + ids[0]] + URLs(prefix, ids[1..]);
      assert ids == [ids[0]] + ids[1..];
    }
  }

  lemma IdsSplit(ids: seq<string>)
    requires IdsOk(ids) && ids != []
    ensures IdsOk(ids[1..]) && ids[0] != "" && '/' !in ids[0] && NoSpaces(ids[0])
  {
    hide NoSpaces;
  }

  lemma ParseMore(url: string, id: string, values: seq<string>)
    requires Trim(url) == url != "" && ExtractID(url) == Ok(id)
    requires ParseList(values).Ok?
    ensures ParseList([url] + values) == Ok([id] + ParseList(values).value)
  {
    assert ([url] + values)[1..] == values;
  }

  /** Behind a prefix that ends in a slash, the ids are read back. */
  lemma ClosedPrefix(prefix: string, ids: seq<string>)
    requires prefix != "" && prefix[|prefix| - 1] == '/' && NoSpaces(prefix) && IdsOk(ids) && ids != []
    ensures ParseConcat(HeadConcat(prefix, ids)) == Final(ids)
  {
    ListBack(prefix, ids);
    var urls := URLs(prefix, ids);
    hide URLs, Split, ParseList, NoSpaces, IdsOk, Lines, Trim;
    SplitLines(urls, ' ');
    SplitNothing();
    NothingListed();
    HeadedList(FINAL, Lines(urls, ' '));
  }

  lemma HeadedList(head: string, rest: string)
    requires rest != ""
    ensures Chop(head + rest) == head + Chop(rest) && (head + Chop(rest))[|head|..] == Chop(rest)
  {}

  lemma SplitNothing()
    ensures Split("", ' ') == [""]
  {}

  lemma NothingListed()
    ensures ParseList([""]) == Ok([]) && ParseList([]) == Ok([])
  {
    assert Trim("") == "";
  }

  lemma NoSpacesMore(a: string, b: string)
    requires NoSpaces(a) && NoSpaces(b)
    ensures NoSpaces(a + b)
  {}

  lemma Scheme(https: bool)
    ensures NoSpaces(Origin(https, "")) && Origin(https, "") != "" && Origin(https, "")[|Origin(https, "")| - 1] == '/'
    ensures forall host :: Origin(https, host) == Origin(https, "") + host
  {
    var scheme := Origin(https, "");
    assert scheme == if https then "https://" else "http://";
    assert NoSpaces("http://") && NoSpaces("https://");
  }

  lemma PrefixCloses(base: string, isAbs: bool, https: bool, host: string)
    requires base != "" && NoSpaces(base) && NoSpaces(host)
    ensures
      var prefix := Prefix(base, isAbs, https, host);
      prefix != "" && prefix[|prefix| - 1] == '/' && NoSpaces(prefix)
  {
    Scheme(https);
    NoSpacesMore(Origin(https, ""), host);
    BaseCloses(base, isAbs);
    hide NoSpaces, BasePath, Origin;
    NoSpacesMore(Origin(https, host), BasePath(base, isAbs));
  }

  lemma BaseCloses(base: string, isAbs: bool)
    requires base != "" && NoSpaces(base)
    ensures
      var path := BasePath(base, isAbs);
      path != "" && path[|path| - 1] == '/' && NoSpaces(path)
  {}

  /** Every id with the host in front of it. */
  function Hosted(host: string, ids: seq<string>): (r: seq<string>)
    ensures |r| == |ids| && forall i :: 0 <= i < |ids| ==> r[i] == host + ids[i]
  {
    seq(|ids|, i requires 0 <= i < |ids| => host + ids[i])
  }

  /** With an empty base path the host runs into the ids: HEAD names other uploads. */
  lemma EmptyBasePathLosesIds(https: bool, host: string, ids: seq<string>)
    requires NoSpaces(host) && '/' !in host && IdsOk(ids) && ids != []
    ensures ParseConcat(HeadConcat(Prefix("", false, https, host), ids)) == Final(Hosted(host, ids))
    ensures Hosted(host, ids) == ids <==> host == ""
  {
    Scheme(https);
    var scheme := Origin(https, "");
    HostedOk(host, ids);
    ClosedPrefix(scheme, Hosted(host, ids));
    assert Prefix("", false, https, host) == scheme + host;
    SameURLs(scheme, host, ids);
    if host == "" {
      assert forall i :: 0 <= i < |ids| ==> host + ids[i] == ids[i];
    } else {
      assert |Hosted(host, ids)[0]| > |ids[0]|;
    }
  }

  lemma HostedOk(host: string, ids: seq<string>)
    requires NoSpaces(host) && '/' !in host && IdsOk(ids)
    ensures IdsOk(Hosted(host, ids))
  {
    forall i | 0 <= i < |ids|
      ensures Hosted(host, ids)[i] != "" && '/' !in Hosted(host, ids)[i] && NoSpaces(Hosted(host, ids)[i])
    {
      NoSpacesMore(host, ids[i]);
    }
  }

  lemma SameURLs(scheme: string, host: string, ids: seq<string>)
    ensures URLs(scheme + host, ids) == URLs(scheme, Hosted(host, ids))
  {
    forall i | 0 <= i < |ids|
      ensures URLs(scheme + host, ids)[i] == URLs(scheme, Hosted(host, ids))[i]
    {
      assert scheme + host + ids[i] == scheme + (host + ids[i]);
    }
  }

  /**
   What HEAD answers for a final upload names the same partial uploads when it is sent in a POST,
   exactly when the base path is not empty (or the request names no host). An empty base path is
   not absolute.
   */
  lemma ConcatRoundTrip(base: string, isAbs: bool, https: bool, host: string, ids: seq<string>)
    requires NoSpaces(base) && (base == "" ==> !isAbs)
    requires NoSpaces(host) && '/' !in host && IdsOk(ids) && ids != []
    ensures ParseConcat(HeadConcat(Prefix(base, isAbs, https, host), ids)) == Final(ids) <==> base != "" || host == ""
  {
    hide HeadConcat, ParseConcat, Prefix, NoSpaces, IdsOk, Hosted;
    if base == "" {
      EmptyBasePathLosesIds(https, host, ids);
    } else {
      PrefixCloses(base, isAbs, https, host);
      ClosedPrefix(Prefix(base, isAbs, https, host), ids);
    }
  }

  /** At http://h, upload a is named ha. */
  lemma EmptyBasePathAtHostH()
    ensures ParseConcat(HeadConcat(Prefix("", false, false, "h"), ["a"])) == Final(["ha"])
  {
    EmptyBasePathLosesIds(false, "h", ["a"]);
    assert Hosted("h", ["a"]) == ["ha"] by { assert "h" + "a" == "ha"; }
  }

  // ----- numbers in headers -----

  /** strconv.ParseInt(s, 10, 64); None for an error. */
  function ParseInt(s: string): (r: Option<int>)
    ensures r.Some? ==> IsInt64(r.value)
  {
    var negative := s != "" && s[0] == '-';
    var digits := if s != "" && (s[0] == '-' || s[0] == '+') then s[1..] else s;
    if digits == "" || Digits(digits).None? then None
    else
      var v: int := Digits(digits).value;
      var n := if negative then -v else v;
      if IsInt64(n) then Some(n) else None
  }

  function FormatNat(n: nat): (s: string)
    ensures s != "" && forall i :: 0 <= i < |s| ==> IsDigit(s[i])
  {
    var last := ['0' + (n % 10) as char];
    if n < 10 then last else FormatNat(n / 10) + last
  }

  /** strconv.FormatInt, as Upload-Offset and Upload-Length are written. */
  function FormatInt(n: int): string
  {
    if n < 0 then "-" + FormatNat(-n) else FormatNat(n)
  }

  lemma {:induction false} DigitsBack(n: nat)
    ensures Digits(FormatNat(n)) == Some(n)
  {
    var last := ['0' + (n % 10) as char];
    if n < 10 {
      assert last[..0] == "";
    } else {
      DigitsBack(n / 10);
      assert FormatNat(n)[..|FormatNat(n)| - 1] == FormatNat(n / 10);
    }
  }

  /** An offset or length that the server writes into a header is read back as the same number. */
  lemma NumberRoundTrip(n: int)
    requires IsInt64(n)
    ensures ParseInt(FormatInt(n)) == Some(n)
  {
    hide Digits, FormatNat;
    if n < 0 {
      DigitsBack(-n);
      assert FormatInt(n)[1..] == FormatNat(-n);
    } else {
      DigitsBack(n);
      assert IsDigit(FormatNat(n)[0]);
    }
  }

  function Zeros(k: nat): string
  {
    seq(k, _ => '0')
  }

  /** Zeros in front change nothing, and a number has no other form. */
  lemma {:induction false} ZerosInFront(k: nat, d: string)
    requires Digits(d).Some?
    ensures Digits(Zeros(k) + d) == Digits(d)
    decreases |d| + k
  {
    if d == "" {
      if k > 0 {
        ZerosInFront(k - 1, d);
        assert (Zeros(k) + d)[..k - 1] == Zeros(k - 1) + d;
        assert (Zeros(k) + d)[k - 1] == '0';
      } else {
        assert Zeros(0) + d == d;
      }
    } else {
      var n := |d| - 1;
      ZerosInFront(k, d[..n]);
      assert (Zeros(k) + d)[..k + n] == Zeros(k) + d[..n] && (Zeros(k) + d)[k + n] == d[n];
    }
  }

  lemma {:induction false} DigitsCanonical(d: string) returns (k: nat)
    requires d != "" && Digits(d).Some?
    ensures d == Zeros(k) + FormatNat(Digits(d).value)
  {
    var n := |d| - 1;
    var v := Digits(d).value;
    LastDigit(d);
    if n == 0 {
      k := 0;
      assert d[..0] == "" && d == [d[0]];
    } else {
      k := DigitsCanonical(d[..n]);
      var before := Digits(d[..n]).value;
      if before == 0 {
        assert FormatNat(0) == "0";
        assert Zeros(k) + "0" == Zeros(k + 1);
        k := k + 1;
        assert FormatNat(v) == [d[n]];
      } else {
        assert FormatNat(v) == FormatNat(before) + [d[n]];
      }
      assert d == d[..n] + [d[n]];
    }
  }

  lemma LastDigit(d: string)
    requires d != "" && Digits(d).Some?
    ensures
      var n := |d| - 1;
      && Digits(d[..n]).Some? && Digits(d).value / 10 == Digits(d[..n]).value && d[n] == '0' + (Digits(d).value % 10) as char
  {}

  /** Exactly the texts of an int64: perhaps a sign, perhaps zeros, and its decimal form. */
  ghost predicate WritesInt(s: string, n: int, sign: string, k: nat)
  {
    && IsInt64(n) && s == sign + Zeros(k) + FormatNat(if n < 0 then -n else n)
    && (if n < 0 then sign == "-" else if n > 0 then sign == "" || sign == "+" else sign == "" || sign == "+" || sign == "-")
  }

  lemma ParseIntMeans(s: string, n: int)
    ensures ParseInt(s) == Some(n) <==> exists sign, k :: WritesInt(s, n, sign, k)
  {
    if ParseInt(s) == Some(n) {
      var sign, k := ParsedForm(s, n);
    }
    if sign, k: nat :| WritesInt(s, n, sign, k) {
      hide WritesInt, ParseInt;
      FormParsed(s, n, sign, k);
    }
  }

  lemma ParsedForm(s: string, n: int) returns (sign: string, k: nat)
    requires ParseInt(s) == Some(n)
    ensures WritesInt(s, n, sign, k)
  {
    hide Digits, FormatNat, Zeros;
    var signed := s[0] == '-' || s[0] == '+';
    var d := if signed then s[1..] else s;
    k := DigitsCanonical(d);
    sign := if signed then [s[0]] else "";
    assert s == sign + d;
    Regroup(sign, Zeros(k), FormatNat(Digits(d).value));
  }

  lemma Regroup(a: string, b: string, c: string)
    ensures a + (b + c) == a + b + c
  {}

  lemma FormParsed(s: string, n: int, sign: string, k: nat)
    requires WritesInt(s, n, sign, k)
    ensures ParseInt(s) == Some(n)
  {
    hide Digits, FormatNat, Zeros;
    var m := if n < 0 then -n else n;
    var d := Zeros(k) + FormatNat(m);
    DigitsBack(m);
    ZerosInFront(k, FormatNat(m));
    Regroup(sign, Zeros(k), FormatNat(m));
    FirstIsDigit(d);
    if sign == "" {
      assert s == d;
    } else {
      assert s[1..] == d && s[0] == sign[0];
    }
  }

  lemma FirstIsDigit(d: string)
    requires d != "" && Digits(d).Some?
    ensures IsDigit(d[0])
  {}

  datatype LengthError = NotImplemented | BothLengths | InvalidDeferLength | InvalidLength

  datatype NewLength = Length(size: int) | Deferred | BadLength(error: LengthError)

  const DEFERRED := "1"

  /**
   validateNewUploadLengthHeaders: an upload has either a length or the mark that it comes later.
   A header that is not there is empty.
   */
  method ValidateNewUploadLengthHeaders(length: string, defer: string, usesDeferrer: bool) returns (r: NewLength)
    ensures r == Deferred <==> defer == DEFERRED && length == "" && usesDeferrer
    ensures r.Length? <==> defer == "" && ParseInt(length).Some? && ParseInt(length).value >= 0
    ensures r.Length? ==> 0 <= r.size <= MAX_INT64 && ParseInt(length) == Some(r.size)
    ensures r == BadLength(NotImplemented) <==> defer == DEFERRED && !usesDeferrer
    ensures r == BadLength(BothLengths) <==> length != "" && defer != "" && (defer == DEFERRED ==> usesDeferrer)
    ensures r == BadLength(InvalidDeferLength) <==> length == "" && defer != "" && defer != DEFERRED
  {
    var haveBoth := length != "" && defer != "";
    var haveInvalidDefer := defer != "" && defer != DEFERRED;
    var isDeferred := defer == DEFERRED;
    if isDeferred && !usesDeferrer {
      return BadLength(NotImplemented);
    } else if haveBoth {
      return BadLength(BothLengths);
    } else if haveInvalidDefer {
      return BadLength(InvalidDeferLength);
    } else if isDeferred {
      return Deferred;
    } else {
      var n := ParseInt(length);
      if n.None? || n.value < 0 {
        return BadLength(InvalidLength);
      }
      return Length(n.value);
    }
  }
}
