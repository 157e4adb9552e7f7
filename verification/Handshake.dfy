/** The first message of a stream: what the client puts into it and what the server demands of it. */
module Handshake {
  import opened Wrappers
  import opened Pcm
  import opened Sessions
  import opened Utf8

  const MAX_STREAM_ID_BYTES: nat := 128
  const MAX_METADATA_ENTRIES: nat := 16
  const MAX_METADATA_KEY_BYTES: nat := 64
  const MAX_METADATA_VALUE_BYTES: nat := 256
  const PROTOCOL_VERSION: Text := [0x31]
  const STREAM_ID_PREFIX: Text := [0x6C, 0x6B, 0x2D]

  datatype SampleFormat = Unspecified | PcmS16le

  datatype StartStream = StartStream(
    version: Text, streamId: Text, inputStart: nat, sampleRate: nat, channels: nat, format: SampleFormat,
      metadata: map<Text, Text>)

  // ---- Client ----

  /** Adding one item to the metadata: items with an empty key are skipped, and later keys replace earlier equal
      ones. */
  function AddItem(built: map<Text, Text>, key: Text, value: Text): Result<map<Text, Text>, EncodeError> {
    if key == [] then Ok(built)
    else
      match TruncateUtf8(key, MAX_METADATA_KEY_BYTES)
      case Err(e) => Err(e)
      case Ok(k) =>
        match TruncateUtf8(value, MAX_METADATA_VALUE_BYTES)
        case Err(e) => Err(e)
        case Ok(v) => Ok(built[k := v])
  }

  function AddItems(items: seq<(Text, Text)>): Result<map<Text, Text>, EncodeError> {
    if items == [] then Ok(map[])
    else
      match AddItems(items[..|items| - 1])
      case Err(e) => Err(e)
      case Ok(built) => AddItem(built, items[|items| - 1].0, items[|items| - 1].1)
  }

  function FirstItems(items: seq<(Text, Text)>): seq<(Text, Text)> {
    if |items| <= MAX_METADATA_ENTRIES then items else items[..MAX_METADATA_ENTRIES]
  }

  function BuildMetadata(items: seq<(Text, Text)>): Result<map<Text, Text>, EncodeError> {
    AddItems(FirstItems(items))
  }

  predicate HexDigits(text: Text) {
    |text| == 32 && forall i | 0 <= i < |text| :: text[i] < 0x80
  }

  /** The StartStream of a generation whose first audio starts at `first`. */
  function ClientStart(first: nat, hex: Text, metadata: map<Text, Text>): StartStream {
    StartStream(PROTOCOL_VERSION, STREAM_ID_PREFIX + hex, first, 16000, 1, PcmS16le, metadata)
  }

  // ---- Server ----

  predicate MetadataOk(metadata: map<Text, Text>) {
    && |metadata| <= MAX_METADATA_ENTRIES
    && forall k | k in metadata ::
         && k != [] && |Bytes(k)| <= MAX_METADATA_KEY_BYTES
         && |Bytes(metadata[k])| <= MAX_METADATA_VALUE_BYTES
  }

  predicate StartOk(start: StartStream) {
    && start.version == PROTOCOL_VERSION
    && 0 < |Bytes(start.streamId)| <= MAX_STREAM_ID_BYTES
    && start.sampleRate == 16000 && start.channels == 1
    && start.format == PcmS16le
    && MetadataOk(start.metadata)
  }

  /** What the server accepts, in the limits of the protocol: version 1, an identifier of 1 to 128 bytes, 16 kHz mono
      16-bit PCM, and at most 16 entries with keys of 1 to 64 bytes and values of at most 256. */
  lemma AcceptedStart(start: StartStream)
    ensures StartOk(start) <==>
              && start.version == [0x31] && 1 <= |Bytes(start.streamId)| <= 128
              && start.sampleRate == 16000 && start.channels == 1 && start.format == PcmS16le
              && |start.metadata| <= 16
              && forall k | k in start.metadata ::
                   1 <= |Bytes(k)| <= 64 && |Bytes(start.metadata[k])| <= 256
  {
    forall k: Text ensures k == [] <==> |Bytes(k)| == 0 {
    }
  }

  /** _validate_start on the first message, None standing for any other body; the loop visits the metadata entries in
      any order. */
  method ValidateStart(body: Option<StartStream>) returns (r: Result<StartStream, Status>)
    ensures r.Ok? <==> body.Some? && StartOk(body.value)
    ensures r.Ok? ==> r.value == body.value
    ensures r.Err? ==>
              r.error == if body.None? || body.value.version != PROTOCOL_VERSION then FAILED_PRECONDITION
                         else INVALID_ARGUMENT
  {
    if body.None? {
      return Err(FAILED_PRECONDITION);
    }
    var start := body.value;
    if start.version != PROTOCOL_VERSION {
      return Err(FAILED_PRECONDITION);
    }
    var size := |Bytes(start.streamId)|;
    if size == 0 || size > MAX_STREAM_ID_BYTES {
      return Err(INVALID_ARGUMENT);
    }
    if start.sampleRate != 16000 || start.channels != 1 {
      return Err(INVALID_ARGUMENT);
    }
    if start.format != PcmS16le {
      return Err(INVALID_ARGUMENT);
    }
    if |start.metadata| > MAX_METADATA_ENTRIES {
      return Err(INVALID_ARGUMENT);
    }
    var todo := start.metadata.Keys;
    while todo != {}
      invariant todo <= start.metadata.Keys
      invariant forall k | k in start.metadata && k !in todo ::
                  && k != [] && |Bytes(k)| <= MAX_METADATA_KEY_BYTES
                  && |Bytes(start.metadata[k])| <= MAX_METADATA_VALUE_BYTES
      decreases |todo|
    {
      var key :| key in todo;
      if key == [] || |Bytes(key)| > MAX_METADATA_KEY_BYTES {
        return Err(INVALID_ARGUMENT);
      }
      if |Bytes(start.metadata[key])| > MAX_METADATA_VALUE_BYTES {
        return Err(INVALID_ARGUMENT);
      }
      todo := todo - {key};
    }
    return Ok(start);
  }

  // ---- The client's start always passes ----

  /** A non-empty key stays non-empty, and both parts of an item fit the limits. */
  lemma ItemFits(key: Text, value: Text)
    requires key != [] && Encodable(key) && Encodable(value)
    ensures TruncateUtf8(key, MAX_METADATA_KEY_BYTES).Ok? && TruncateUtf8(value, MAX_METADATA_VALUE_BYTES).Ok?
    ensures var k, v := TruncateUtf8(key, MAX_METADATA_KEY_BYTES).value,
            TruncateUtf8(value, MAX_METADATA_VALUE_BYTES).value;
            k != [] && |Bytes(k)| <= MAX_METADATA_KEY_BYTES && |Bytes(v)| <= MAX_METADATA_VALUE_BYTES
  {
    TruncateIsLongestPrefix(key, MAX_METADATA_KEY_BYTES);
    TruncateIsLongestPrefix(value, MAX_METADATA_VALUE_BYTES);
    FitIsLongest(key, MAX_METADATA_KEY_BYTES, Fit(key, MAX_METADATA_KEY_BYTES));
    FitIsLongest(value, MAX_METADATA_VALUE_BYTES, Fit(value, MAX_METADATA_VALUE_BYTES));
  }

  predicate ItemEncodable(item: (Text, Text)) {
    item.0 != [] ==> Encodable(item.0) && Encodable(item.1)
  }

  /** An entry of the metadata comes from an item, both parts cut at their limits. */
  predicate ComesFrom(key: Text, value: Text, item: (Text, Text)) {
    && item.0 != []
    && key == item.0[..Fit(item.0, MAX_METADATA_KEY_BYTES)]
    && value == item.1[..Fit(item.1, MAX_METADATA_VALUE_BYTES)]
  }

  predicate AllEncodable(items: seq<(Text, Text)>) {
    forall i | 0 <= i < |items| :: ItemEncodable(items[i])
  }

  predicate SomeItem(key: Text, value: Text, items: seq<(Text, Text)>) {
    exists i | 0 <= i < |items| :: ComesFrom(key, value, items[i])
  }

  predicate EntryOk(key: Text, value: Text, items: seq<(Text, Text)>) {
    && key != [] && |Bytes(key)| <= MAX_METADATA_KEY_BYTES && |Bytes(value)| <= MAX_METADATA_VALUE_BYTES
    && SomeItem(key, value, items)
  }

  ghost predicate FromItems(metadata: map<Text, Text>, items: seq<(Text, Text)>) {
    forall k | k in metadata :: EntryOk(k, metadata[k], items)
  }

  lemma SomeItemGrows(key: Text, value: Text, items: seq<(Text, Text)>, item: (Text, Text))
    ensures SomeItem(key, value, items) || ComesFrom(key, value, item) ==> SomeItem(key, value, items + [item])
  {
    hide ComesFrom;
    if SomeItem(key, value, items) {
      var i :| 0 <= i < |items| && ComesFrom(key, value, items[i]);
      assert (items + [item])[i] == items[i];
    }
    assert (items + [item])[|items|] == item;
  }

  lemma FromItemsGrows(metadata: map<Text, Text>, items: seq<(Text, Text)>, item: (Text, Text))
    requires FromItems(metadata, items)
    ensures FromItems(metadata, items + [item])
  {
    hide SomeItem, Bytes;
    forall k | k in metadata ensures EntryOk(k, metadata[k], items + [item]) {
      SomeItemGrows(k, metadata[k], items, item);
    }
  }

  /** What an item adds. */
  lemma ItemEntry(key: Text, value: Text, items: seq<(Text, Text)>)
    requires key != [] && Encodable(key) && Encodable(value)
    ensures TruncateUtf8(key, MAX_METADATA_KEY_BYTES).Ok? && TruncateUtf8(value, MAX_METADATA_VALUE_BYTES).Ok?
    ensures EntryOk(TruncateUtf8(key, MAX_METADATA_KEY_BYTES).value,
                    TruncateUtf8(value, MAX_METADATA_VALUE_BYTES).value,
                    items + [(key, value)])
  {
    ItemFits(key, value);
    TruncateIsLongestPrefix(key, MAX_METADATA_KEY_BYTES);
    TruncateIsLongestPrefix(value, MAX_METADATA_VALUE_BYTES);
    var k, v := TruncateUtf8(key, MAX_METADATA_KEY_BYTES).value, TruncateUtf8(value, MAX_METADATA_VALUE_BYTES).value;
    assert ComesFrom(k, v, (key, value));
    hide TruncateUtf8, Encodable, Fit, Bytes, SomeItem, ComesFrom;
    SomeItemGrows(k, v, items, (key, value));
  }

  lemma AddedItem(built: map<Text, Text>, items: seq<(Text, Text)>, key: Text, value: Text)
    requires FromItems(built, items) && |built| <= |items|
    ensures AddItem(built, key, value).Ok? <==> ItemEncodable((key, value))
    ensures AddItem(built, key, value).Ok? ==>
              FromItems(AddItem(built, key, value).value, items + [(key, value)])
              && |AddItem(built, key, value).value| <= |items| + 1
  {
    TruncateOk(key, MAX_METADATA_KEY_BYTES);
    TruncateOk(value, MAX_METADATA_VALUE_BYTES);
    hide TruncateUtf8, Encodable, EntryOk;
    FromItemsGrows(built, items, (key, value));
    if key != [] && ItemEncodable((key, value)) {
      ItemEntry(key, value, items);
      MapGrows(built, TruncateUtf8(key, MAX_METADATA_KEY_BYTES).value,
               TruncateUtf8(value, MAX_METADATA_VALUE_BYTES).value);
    }
  }

  lemma TruncateOk(text: Text, max: nat)
    ensures TruncateUtf8(text, max).Ok? <==> Encodable(text)
  {
  }

  lemma MapGrows(before: map<Text, Text>, key: Text, value: Text)
    ensures |before[key := value]| <= |before| + 1
  {
    assert before[key := value].Keys == before.Keys + {key};
    assert |before.Keys + {key}| <= |before.Keys| + 1;
  }

  lemma AllEncodableSnoc(items: seq<(Text, Text)>, item: (Text, Text))
    ensures AllEncodable(items + [item]) <==> AllEncodable(items) && ItemEncodable(item)
  {
    hide ItemEncodable;
    var all := items + [item];
    if AllEncodable(all) {
      assert all[|items|] == item;
      forall i | 0 <= i < |items| ensures ItemEncodable(items[i]) {
        assert all[i] == items[i];
      }
    }
  }

  lemma {:induction false} AddedItems(items: seq<(Text, Text)>)
    ensures AddItems(items).Ok? <==> AllEncodable(items)
    ensures AddItems(items).Ok? ==> FromItems(AddItems(items).value, items) && |AddItems(items).value| <= |items|
  {
    if items != [] {
      var front, last := items[..|items| - 1], items[|items| - 1];
      AddedItems(front);
      assert items == front + [last];
      AllEncodableSnoc(front, last);
      hide AllEncodable, AddItem, FromItems, ItemEncodable;
      if AddItems(front).Ok? {
        AddedItem(AddItems(front).value, front, last.0, last.1);
      }
    }
  }

  lemma FromItemsOk(metadata: map<Text, Text>, items: seq<(Text, Text)>)
    requires FromItems(metadata, items) && |metadata| <= MAX_METADATA_ENTRIES
    ensures MetadataOk(metadata)
  {
    hide SomeItem, Bytes;
  }

  /** A later item replaces an earlier one exactly if their keys are cut to the same key. */
  predicate Replaced(items: seq<(Text, Text)>, i: nat)
    requires i < |items|
  {
    exists j | i < j < |items| ::
      items[j].0 != [] && items[j].0[..Fit(items[j].0, MAX_METADATA_KEY_BYTES)]
                          == items[i].0[..Fit(items[i].0, MAX_METADATA_KEY_BYTES)]
  }

  lemma ReplacedGrows(items: seq<(Text, Text)>, last: (Text, Text), i: nat)
    requires i < |items|
    ensures Replaced(items, i) ==> Replaced(items + [last], i)
  {
    if Replaced(items, i) {
      var j :| i < j < |items| && items[j].0 != []
               && items[j].0[..Fit(items[j].0, MAX_METADATA_KEY_BYTES)]
                  == items[i].0[..Fit(items[i].0, MAX_METADATA_KEY_BYTES)];
      assert (items + [last])[j] == items[j] && (items + [last])[i] == items[i];
    }
  }

  predicate ItemHeld(metadata: map<Text, Text>, item: (Text, Text)) {
    var key := item.0[..Fit(item.0, MAX_METADATA_KEY_BYTES)];
    key in metadata && metadata[key] == item.1[..Fit(item.1, MAX_METADATA_VALUE_BYTES)]
  }

  /** Every item that is not replaced is held, key and value cut at their limits. */
  lemma {:induction false} LastItemHeld(items: seq<(Text, Text)>, i: nat)
    requires AddItems(items).Ok? && i < |items| && items[i].0 != [] && !Replaced(items, i)
    ensures ItemHeld(AddItems(items).value, items[i])
  {
    var front, last := items[..|items| - 1], items[|items| - 1];
    TruncateIsLongestPrefix(last.0, MAX_METADATA_KEY_BYTES);
    TruncateIsLongestPrefix(last.1, MAX_METADATA_VALUE_BYTES);
    hide TruncateUtf8, Fit;
    if i < |front| {
      ReplacedGrows(front, last, i);
      assert items == front + [last];
      LastItemHeld(front, i);
    }
  }

  /** Whatever metadata the provider gives, the StartStream a generation opens with names the first sample of that
      generation and passes every check of the server.  It is built exactly if the texts it uses can be encoded; its
      entries come from the first sixteen items, each cut to whole code points, and each of these items that has a key
      and is not replaced by a later one is in it. */
  lemma StartAlwaysPasses(first: nat, hex: Text, items: seq<(Text, Text)>)
    requires HexDigits(hex)
    ensures var used := if |items| <= 16 then items else items[..16];
            && (BuildMetadata(items).Ok? <==> AllEncodable(used))
            && (BuildMetadata(items).Ok? ==>
                  var metadata := BuildMetadata(items).value;
                  && StartOk(ClientStart(first, hex, metadata)) && ClientStart(first, hex, metadata).inputStart == first
                  && FromItems(metadata, used)
                  && forall i | 0 <= i < |used| && used[i].0 != [] && !Replaced(used, i) ::
                       ItemHeld(metadata, used[i]))
  {
    var used := FirstItems(items);
    if BuildMetadata(items).Ok? {
      forall i | 0 <= i < |used| && used[i].0 != [] && !Replaced(used, i)
        ensures ItemHeld(BuildMetadata(items).value, used[i])
      {
        LastItemHeld(used, i);
      }
    }
    AddedItems(used);
    AsciiBytes(STREAM_ID_PREFIX + hex);
    hide AddItems, Bytes, FromItems, MetadataOk, AllEncodable, ItemHeld, Replaced;
    if BuildMetadata(items).Ok? {
      FromItemsOk(BuildMetadata(items).value, used);
    }
  }

  lemma {:induction false} AsciiBytes(text: Text)
    requires forall i | 0 <= i < |text| :: text[i] < 0x80
    ensures |Bytes(text)| == |text|
  {
    if text != [] {
      AsciiBytes(text[1..]);
    }
  }
}
