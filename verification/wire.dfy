/** Messages between workers and the aggregator: a tree with byte strings, JSON text, length-prefixed frames. */
module Wire {
  import opened Base64
  import opened Wrappers

  const MAX_MSG_BYTES: nat := 200 * 1024 * 1024
  const RECV_BUFFER: nat := 65536

  /** What a message is made of.  Dictionary entries keep their order; keys are strings. */
  datatype Value =
    | Null | Bool(b: bool) | Num(n: int) | Str(s: string) | Bytes(bytes: seq<byte>)
    | List(items: seq<Value>) | Dict(entries: seq<Entry>)

  datatype Entry = Entry(key: string, value: Value)

  const MARKER := "__b64__"

  // ----- _encode and _decode -----

  function EncodeTree(v: Value): Value
    decreases v
  {
    match v
    case Bytes(bs) => Dict([Entry(MARKER, Str(Base64.Encode(bs)))])
    case List(items) => List(EncodeItems(items))
    case Dict(entries) => Dict(EncodeEntries(entries))
    case _ => v
  }

  function EncodeItems(items: seq<Value>): (r: seq<Value>)
    ensures |r| == |items|
    decreases items
  {
    if items == [] then [] else [EncodeTree(items[0])] + EncodeItems(items[1..])
  }

  function EncodeEntries(entries: seq<Entry>): (r: seq<Entry>)
    ensures |r| == |entries| && forall i :: 0 <= i < |r| ==> r[i].key == entries[i].key
    decreases entries
  {
    if entries == [] then [] else [Entry(entries[0].key, EncodeTree(entries[0].value))] + EncodeEntries(entries[1..])
  }

  predicate IsMarker(entries: seq<Entry>) {
    |entries| == 1 && entries[0].key == MARKER
  }

  predicate Ascii(s: string) {
    forall i :: 0 <= i < |s| ==> s[i] as int < 128
  }

  /** b64decode of the marker's value: only text can be decoded, and only ASCII. */
  function FromMarker(v: Value): Result<Value> {
    if !v.Str? || !Ascii(v.s) then Err
    else match Base64.Decode(v.s, START)
         case Some(bs) => Ok(Bytes(bs))
         case None => Err
  }

  function DecodeTree(v: Value): Result<Value>
    decreases v
  {
    match v
    case Dict(entries) =>
      if IsMarker(entries) then FromMarker(entries[0].value)
      else (match DecodeEntries(entries) case Ok(es) => Ok(Dict(es)) case Err => Err)
    case List(items) => (match DecodeItems(items) case Ok(xs) => Ok(List(xs)) case Err => Err)
    case _ => Ok(v)
  }

  function DecodeItems(items: seq<Value>): Result<seq<Value>>
    decreases items
  {
    if items == [] then Ok([])
    else match DecodeTree(items[0])
         case Err => Err
         case Ok(x) => (match DecodeItems(items[1..]) case Ok(xs) => Ok([x] + xs) case Err => Err)
  }

  function DecodeEntries(entries: seq<Entry>): Result<seq<Entry>>
    decreases entries
  {
    if entries == [] then Ok([])
    else match DecodeTree(entries[0].value)
         case Err => Err
         case Ok(x) =>
           (match DecodeEntries(entries[1..]) case Ok(es) => Ok([Entry(entries[0].key, x)] + es) case Err => Err)
  }

  /** No dictionary anywhere in the tree whose only key is the marker. */
  predicate Unambiguous(v: Value)
    decreases v
  {
    match v
    case List(items) => forall i :: 0 <= i < |items| ==> Unambiguous(items[i])
    case Dict(entries) => !IsMarker(entries) && forall i :: 0 <= i < |entries| ==> Unambiguous(entries[i].value)
    case _ => true
  }

  predicate ItemsUnambiguous(items: seq<Value>) {
    forall i :: 0 <= i < |items| ==> Unambiguous(items[i])
  }

  predicate EntriesUnambiguous(entries: seq<Entry>) {
    forall i :: 0 <= i < |entries| ==> Unambiguous(entries[i].value)
  }

  lemma {:induction false} SymbolsAreAscii(bs: seq<byte>)
    ensures Ascii(Base64.Encode(bs))
  {
    if |bs| >= 3 { SymbolsAreAscii(bs[3..]); }
  }

  /** A tree comes back as it was exactly when no dictionary in it looks like the byte marker. */
  lemma {:induction false} TreeRoundTrip(v: Value)
    ensures DecodeTree(EncodeTree(v)) == Ok(v) <==> Unambiguous(v)
    decreases v
  {
    match v
    case Bytes(bs) =>
      SymbolsAreAscii(bs);
      Base64.RoundTrip(bs);
    case List(items) =>
      ItemsRoundTrip(items);
      assert ItemsUnambiguous(items) <==> Unambiguous(v);
    case Dict(entries) =>
      if IsMarker(entries) {
        assert IsMarker(EncodeEntries(entries));
      } else {
        EntriesRoundTrip(entries);
        assert !IsMarker(EncodeEntries(entries));
        assert EntriesUnambiguous(entries) <==> Unambiguous(v);
      }
    case _ =>
  }

  /** No byte string anywhere in the tree: JSON has a text for it. */
  predicate Plain(v: Value)
    decreases v
  {
    match v
    case Bytes(_) => false
    case List(items) => forall i :: 0 <= i < |items| ==> Plain(items[i])
    case Dict(entries) => forall i :: 0 <= i < |entries| ==> Plain(entries[i].value)
    case _ => true
  }

  /** What is sent is plain, and a byte string is sent as a dictionary with its Base64 text behind the marker. */
  lemma {:induction false} EncodesPlain(v: Value)
    ensures Plain(EncodeTree(v))
    ensures v.Bytes? ==> EncodeTree(v) == Dict([Entry("__b64__", Str(Base64.Encode(v.bytes)))])
    decreases v
  {
    match v
    case List(items) => ItemsPlain(items);
    case Dict(entries) => EntriesPlain(entries);
    case _ =>
  }

  /** The marker's value must be ASCII text. */
  lemma MarkerRejected(v: Value)
    requires v.Str? ==> exists i :: 0 <= i < |v.s| && v.s[i] as int >= 128
    ensures DecodeTree(Dict([Entry("__b64__", v)])) == Err
  {
    assert IsMarker([Entry(MARKER, v)]);
  }

  lemma {:induction false} ItemsPlain(items: seq<Value>)
    ensures forall i :: 0 <= i < |items| ==> Plain(EncodeItems(items)[i])
    decreases items
  {
    if items != [] {
      EncodesPlain(items[0]);
      ItemsPlain(items[1..]);
    }
  }

  lemma {:induction false} EntriesPlain(entries: seq<Entry>)
    ensures forall i :: 0 <= i < |entries| ==> Plain(EncodeEntries(entries)[i].value)
    decreases entries
  {
    if entries != [] {
      EncodesPlain(entries[0].value);
      EntriesPlain(entries[1..]);
    }
  }

  /** A concrete tree that changes on the way: a dictionary whose only key is the marker comes back as bytes. */
  lemma MarkerComesBackAsBytes()
    ensures DecodeTree(EncodeTree(Dict([Entry("__b64__", Str(""))]))) == Ok(Bytes([]))
  {
    var entries := [Entry(MARKER, Str(""))];
    assert EncodeEntries(entries) == [Entry(MARKER, EncodeTree(Str("")))] + EncodeEntries(entries[1..]) == entries;
    assert Base64.Decode("", START) == Some([]);
  }

  lemma ItemsSplit(items: seq<Value>)
    requires items != []
    ensures ItemsUnambiguous(items) <==> Unambiguous(items[0]) && ItemsUnambiguous(items[1..])
  {
    hide Unambiguous;
    assert items == [items[0]] + items[1..];
  }

  lemma ItemsBack(items: seq<Value>)
    requires items != []
    ensures DecodeItems(EncodeItems(items)) == Ok(items) <==>
      DecodeTree(EncodeTree(items[0])) == Ok(items[0]) && DecodeItems(EncodeItems(items[1..])) == Ok(items[1..])
  {
    var code := EncodeItems(items);
    hide DecodeTree, EncodeTree;
    assert code[0] == EncodeTree(items[0]) && code[1..] == EncodeItems(items[1..]);
    hide EncodeItems;
    assert items == [items[0]] + items[1..];
  }

  lemma {:induction false} ItemsRoundTrip(items: seq<Value>)
    ensures DecodeItems(EncodeItems(items)) == Ok(items) <==> ItemsUnambiguous(items)
    decreases items
  {
    if items != [] {
      TreeRoundTrip(items[0]);
      ItemsRoundTrip(items[1..]);
      ItemsSplit(items);
      ItemsBack(items);
    }
  }

  lemma EntriesSplit(entries: seq<Entry>)
    requires entries != []
    ensures EntriesUnambiguous(entries) <==> Unambiguous(entries[0].value) && EntriesUnambiguous(entries[1..])
  {
    hide Unambiguous;
    assert entries == [entries[0]] + entries[1..];
  }

  lemma DecodeFirst(e: Entry, rest: seq<Entry>)
    ensures DecodeEntries([e] + rest) ==
      match DecodeTree(e.value)
      case Err => Err
      case Ok(x) => (match DecodeEntries(rest) case Ok(es) => Ok([Entry(e.key, x)] + es) case Err => Err)
  {
    hide DecodeTree;
    assert ([e] + rest)[1..] == rest;
  }

  lemma SameList(key: string, x: Value, es: seq<Entry>, entries: seq<Entry>)
    requires entries != [] && key == entries[0].key
    ensures [Entry(key, x)] + es == entries <==> x == entries[0].value && es == entries[1..]
  {
    assert entries == [entries[0]] + entries[1..];
    assert ([Entry(key, x)] + es)[0] == Entry(key, x) && ([Entry(key, x)] + es)[1..] == es;
  }

  /** The list comes back exactly when its first entry and the others do. */
  lemma EntriesBack(entries: seq<Entry>)
    requires entries != []
    ensures DecodeEntries(EncodeEntries(entries)) == Ok(entries) <==>
      DecodeTree(EncodeTree(entries[0].value)) == Ok(entries[0].value)
      && DecodeEntries(EncodeEntries(entries[1..])) == Ok(entries[1..])
  {
    var e, rest := Entry(entries[0].key, EncodeTree(entries[0].value)), EncodeEntries(entries[1..]);
    assert EncodeEntries(entries) == [e] + rest;
    hide *;
    DecodeFirst(e, rest);
    if DecodeTree(e.value).Ok? && DecodeEntries(rest).Ok? {
      SameList(e.key, DecodeTree(e.value).value, DecodeEntries(rest).value, entries);
    }
  }

  lemma {:induction false} EntriesRoundTrip(entries: seq<Entry>)
    ensures DecodeEntries(EncodeEntries(entries)) == Ok(entries) <==> EntriesUnambiguous(entries)
    decreases entries
  {
    if entries != [] {
      TreeRoundTrip(entries[0].value);
      EntriesRoundTrip(entries[1..]);
      EntriesSplit(entries);
      EntriesBack(entries);
    }
  }
}
