/** The page record of internal/crawler/results.go, its validate-then-encode
    contract, and the loop that saves a batch of records into one Redis set.
    URL validity and the JSON codec are library code, the fields of `Codec`. */
module Results {
  import opened Common

  newtype byte = b: int | 0 <= b < 256

  /** One crawled page (the record of results.go: it has no ParentURL). */
  datatype PageData = PageData(
    url: string,
    links: seq<string>,
    searchTerms: seq<string>,
    matchingTerms: seq<string>,
    error: string)

  /** The zero value, which a freshly declared `var p PageData` holds. */
  const EmptyPageData := PageData("", [], [], [], "")

  /** The library calls behind validation and (de)serialisation. */
  datatype Codec = Codec(
    /** url.ParseRequestURI returns no error */
    requestURIValid: string -> bool,
    /** json.Marshal of a record */
    encode: PageData -> seq<byte>,
    /** json.Unmarshal into an existing record: the record as it is left
        (fields absent from the input keep their value) and the error */
    decode: (PageData, seq<byte>) -> (PageData, Option<Error>))

  /** Decoding what was encoded, into a zero record, gives the record back. */
  ghost predicate RoundTrips(codec: Codec)
  {
    forall p :: codec.decode(EmptyPageData, codec.encode(p)) == (p, None)
  }

  /** Validate: the record is valid exactly when its URL parses as a request URI. */
  function Validate(codec: Codec, p: PageData): (err: Option<Error>)
    ensures err.None? <==> codec.requestURIValid(p.url)
    ensures err.Some? ==> err.value == InvalidURL
  {
    if codec.requestURIValid(p.url) then None else Some(InvalidURL)
  }

  /** Only the URL field decides validity. */
  lemma ValidateReadsOnlyURL(codec: Codec, p: PageData, q: PageData)
    requires p.url == q.url
    ensures Validate(codec, p) == Validate(codec, q)
  {
  }

  /** MarshalBinary: validation first; an invalid record yields its
      validation error and no bytes, a valid one its JSON encoding. */
  function MarshalBinary(codec: Codec, p: PageData): (r: Result<seq<byte>>)
    ensures r.Err? <==> Validate(codec, p).Some?
    ensures r.Err? ==> r.error == Validate(codec, p).value
    ensures r.Ok? ==> r.value == codec.encode(p)
  {
    match Validate(codec, p)
    case Some(e) => Err(e)
    case None => Ok(codec.encode(p))
  }

  /** UnmarshalBinary on values: decode into `target`; a decode error is
      returned as it is, otherwise the decoded record is validated. */
  function Unmarshal(codec: Codec, target: PageData, data: seq<byte>): (r: (PageData, Option<Error>))
    ensures r.0 == codec.decode(target, data).0
    ensures codec.decode(target, data).1.Some? ==> r.1 == codec.decode(target, data).1
    ensures codec.decode(target, data).1.None? ==> r.1 == Validate(codec, r.0)
  {
    var (decoded, err) := codec.decode(target, data);
    if err.Some? then (decoded, err) else (decoded, Validate(codec, decoded))
  }

  /** With a codec whose decode inverts its encode, a valid record survives
      MarshalBinary followed by UnmarshalBinary into a zero record. */
  lemma UnmarshalAfterMarshal(codec: Codec, p: PageData)
    requires RoundTrips(codec)
    requires Validate(codec, p).None?
    ensures MarshalBinary(codec, p).Ok?
    ensures Unmarshal(codec, EmptyPageData, MarshalBinary(codec, p).value) == (p, None)
  {
    assert codec.decode(EmptyPageData, codec.encode(p)) == (p, None);
  }

  /** A record that UnmarshalBinary decodes into (`*p`). */
  class PageRecord {
    var data: PageData

    constructor ()
      ensures data == EmptyPageData
    {
      data := EmptyPageData;
    }

    /** UnmarshalBinary: overwrites the record with what decoding leaves in
        it, then reports the decode error or the validation verdict. */
    method UnmarshalBinary(codec: Codec, bytes: seq<byte>) returns (err: Option<Error>)
      modifies this
      ensures (data, err) == Unmarshal(codec, old(data), bytes)
    {
      var (decoded, decodeErr) := codec.decode(data, bytes);
      data := decoded;
      if decodeErr.Some? {
        return decodeErr;
      }
      err := Validate(codec, data);
    }
  }

  /** The members of the set under `key` (none if the key is absent). */
  function Members(sets: map<string, set<seq<byte>>>, key: string): set<seq<byte>>
  {
    if key in sets then sets[key] else {}
  }

  /** The store after one successful SADD of `member` under `key`. */
  function Add(sets: map<string, set<seq<byte>>>, key: string, member: seq<byte>): map<string, set<seq<byte>>>
  {
    sets[key := Members(sets, key) + {member}]
  }

  /** The store after successful SADDs of `members`, in order, under `key`. */
  function AddAll(sets: map<string, set<seq<byte>>>, key: string, members: seq<seq<byte>>): map<string, set<seq<byte>>>
    decreases |members|
  {
    if members == [] then sets else AddAll(Add(sets, key, members[0]), key, members[1..])
  }

  /** Adding one more member after a batch is adding the longer batch. */
  lemma {:induction false} AddAllSnoc(sets: map<string, set<seq<byte>>>, key: string, members: seq<seq<byte>>, m: seq<byte>)
    ensures AddAll(sets, key, members + [m]) == Add(AddAll(sets, key, members), key, m)
    decreases |members|
  {
    if members == [] {
      assert members + [m] == [m];
    } else {
      assert (members + [m])[1..] == members[1..] + [m];
      AddAllSnoc(Add(sets, key, members[0]), key, members[1..], m);
    }
  }

  /** A batch of SADDs under `key` puts exactly its members into `key`'s set,
      creates `key` only if the batch is not empty, and leaves every other
      key as it was. */
  lemma {:induction false} AddAllEffect(sets: map<string, set<seq<byte>>>, key: string, members: seq<seq<byte>>)
    ensures Members(AddAll(sets, key, members), key) == Members(sets, key) + set m | m in members
    ensures AddAll(sets, key, members).Keys == sets.Keys + (if members == [] then {} else {key})
    ensures forall k :: k != key && k in sets ==> AddAll(sets, key, members)[k] == sets[k]
    decreases |members|
  {
    if members != [] {
      AddAllEffect(Add(sets, key, members[0]), key, members[1..]);
      assert (set m | m in members) == {members[0]} + set m | m in members[1..];
    }
  }

  /** The JSON encodings of a batch of records, in order. */
  function Encodings(codec: Codec, pages: seq<PageData>): (r: seq<seq<byte>>)
    ensures |r| == |pages|
    ensures forall i :: 0 <= i < |pages| ==> r[i] == codec.encode(pages[i])
  {
    seq(|pages|, i requires 0 <= i < |pages| => codec.encode(pages[i]))
  }

  /** The encodings of one more record are the earlier ones and its own. */
  lemma EncodingsSnoc(codec: Codec, pages: seq<PageData>, i: nat)
    requires i < |pages|
    ensures Encodings(codec, pages[..i + 1]) == Encodings(codec, pages[..i]) + [codec.encode(pages[i])]
  {
    assert Encodings(codec, pages[..i + 1]) == Encodings(codec, pages[..i]) + [codec.encode(pages[i])];
  }

  /** The Redis client seen as a map from keys to sets of members. Whether a
      call fails is outside the model: the n-th SADD call fails exactly when
      `failsAt(n)`. */
  class SetStore {
    var sets: map<string, set<seq<byte>>>
    var calls: nat
    const failsAt: nat -> bool

    constructor (failsAt: nat -> bool)
      ensures sets == map[] && calls == 0 && this.failsAt == failsAt
    {
      sets := map[];
      calls := 0;
      this.failsAt := failsAt;
    }

    /** SADD key member: on success the member is in the set and the count
        says whether it was new; on failure nothing is written. */
    method SAdd(key: string, member: seq<byte>) returns (count: nat, err: Option<Error>)
      modifies this
      ensures calls == old(calls) + 1
      ensures failsAt(old(calls)) ==> err == Some(External("redis")) && count == 0 && sets == old(sets)
      ensures !failsAt(old(calls)) ==>
        && err == None
        && sets == Add(old(sets), key, member)
        && count == (if member in Members(old(sets), key) then 0 else 1)
    {
      if failsAt(calls) {
        count, err := 0, Some(External("redis"));
      } else {
        count := if member in Members(sets, key) then 0 else 1;
        sets := Add(sets, key, member);
        err := None;
      }
      calls := calls + 1;
    }
  }

  /** SaveResultsToRedis: marshal each record and SADD it under `key`, in
      order, stopping at the first marshalling or SADD error. `saved` is
      the number of records added before it returns. */
  method SaveResultsToRedis(store: SetStore, results: seq<PageData>, key: string, codec: Codec)
    returns (err: Option<Error>, ghost saved: nat)
    modifies store
    ensures saved <= |results|
    ensures err.None? <==> saved == |results|
    ensures forall j :: 0 <= j < saved ==> Validate(codec, results[j]).None?
    ensures forall j :: old(store.calls) <= j < old(store.calls) + saved ==> !store.failsAt(j)
    ensures store.sets == AddAll(old(store.sets), key, Encodings(codec, results[..saved]))
    ensures saved < |results| ==>
      if Validate(codec, results[saved]).Some? then
        err == Validate(codec, results[saved]) && store.calls == old(store.calls) + saved
      else
        store.failsAt(old(store.calls) + saved) && err == Some(External("redis"))
        && store.calls == old(store.calls) + saved + 1
    ensures saved == |results| ==> store.calls == old(store.calls) + |results|
  {
    var i := 0;
    while i < |results|
      invariant 0 <= i <= |results|
      invariant store.calls == old(store.calls) + i
      invariant forall j :: 0 <= j < i ==> Validate(codec, results[j]).None?
      invariant forall j :: old(store.calls) <= j < old(store.calls) + i ==> !store.failsAt(j)
      invariant store.sets == AddAll(old(store.sets), key, Encodings(codec, results[..i]))
    {
      var data := MarshalBinary(codec, results[i]);
      if data.Err? {
        err, saved := Some(data.error), i;
        return;
      }
      assert Validate(codec, results[i]).None?;
      var count, e := store.SAdd(key, data.value);
      if e.Some? {
        err, saved := e, i;
        return;
      }
      AddAllSnoc(old(store.sets), key, Encodings(codec, results[..i]), data.value);
      EncodingsSnoc(codec, results, i);
      i := i + 1;
    }
    assert results[..i] == results;
    return None, i;
  }

  /** After a save that returned no error, every record was valid and its
      encoding is a member of the set under `key`; other keys are untouched. */
  lemma SavedBatchIsStored(sets: map<string, set<seq<byte>>>, key: string, codec: Codec, results: seq<PageData>)
    ensures var after := AddAll(sets, key, Encodings(codec, results));
      && (forall p :: p in results ==> codec.encode(p) in Members(after, key))
      && (forall k :: k != key && k in sets ==> k in after && after[k] == sets[k])
      && (forall k :: k != key ==> (k in after <==> k in sets))
  {
    AddAllEffect(sets, key, Encodings(codec, results));
    forall p | p in results ensures codec.encode(p) in Members(AddAll(sets, key, Encodings(codec, results)), key) {
      var i :| 0 <= i < |results| && results[i] == p;
      assert Encodings(codec, results)[i] == codec.encode(p);
    }
  }
}
