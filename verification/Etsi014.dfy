/**
 The client of the key server: requests for a key, and how an answer becomes a key. ("Get key" and
 "Get key with key IDs" of ETSI GS QKD 014.)

 JSON is not modelled; an answer is the list of its `keys` entries.
 */
module Etsi014 {
  import opened Wrappers
  import opened Bytes
  import opened Base64
  import opened UuidText
  import opened Kdf

  datatype ResponseKey = ResponseKey(id: string, key: seq<byte>)

  datatype HttpResponse = Success(keys: seq<ResponseKey>) | Failure(status: nat)

  /** `Panicked` is a failed assertion or `unwrap`; the others are returned to the caller. */
  datatype FetchError = BadStatus(status: nat) | MalformedId | WrongKeyCount | WrongKeyLength | Panicked

  function TryFromKey(r: ResponseKey): Result<Etsi014Key, FetchError>
    requires ParseStr(r.id).Some?
  {
    if EncodedLen(|r.key|) == KEY_LENGTH then Err(Panicked)
    else
      var bs := DecodeInto(r.key, KEY_LENGTH);
      if bs.None? then Err(Panicked)
      else if |bs.value| != KEY_LENGTH then Err(WrongKeyLength)
      else Ok(Etsi014Key(ParseStr(r.id).value, bs.value))
  }

  function FromResponse(r: HttpResponse): Result<Etsi014Key, FetchError> {
    match r
    case Failure(status) => Err(BadStatus(status))
    case Success(keys) =>
      if exists k | k in keys :: ParseStr(k.id).None? then Err(MalformedId)
      else if |keys| != 1 then Err(WrongKeyCount)
      else TryFromKey(keys[0])
  }

  /** All ids in the answer can be read. */
  ghost predicate Readable(keys: seq<ResponseKey>) {
    forall k | k in keys :: ParseStr(k.id).Some?
  }

  /** The text makes the conversion panic: 22 to 24 characters, or no encoding of at most 32 bytes. */
  ghost predicate Panics(text: seq<byte>) {
    22 <= |text| <= 24 || forall bs: seq<byte> | |bs| <= KEY_LENGTH :: text != Encode(bs)
  }

  /** An answer yields a key exactly when it is one entry with a readable id and 32 encoded bytes. */
  lemma ResponseYieldsKeyIff(r: HttpResponse, k: Etsi014Key)
    ensures FromResponse(r) == Ok(k) <==>
            r.Success? && |r.keys| == 1 && ParseStr(r.keys[0].id) == Some(k.id) && r.keys[0].key == Encode(k.key)
  {
    hide Encode, Decode, ParseStr;
    EncodeLength(k.key);
    if r.Success? && |r.keys| == 1 {
      assert r.keys == [r.keys[0]];
      DecodeIff(r.keys[0].key, k.key);
    }
  }

  /** The conversion of one readable entry panics on exactly these texts. */
  lemma ResponseCrashesIff(key: ResponseKey)
    requires ParseStr(key.id).Some?
    ensures FromResponse(Success([key])) == Err(Panicked) <==> Panics(key.key)
  {
    hide Encode, Decode, ParseStr;
    forall bs: seq<byte> | key.key == Encode(bs)
      ensures Decode(key.key) == Some(bs)
    {
      DecodeIff(key.key, bs);
    }
    if Decode(key.key).Some? {
      DecodeIff(key.key, Decode(key.key).value);
    }
  }

  /** Exactly which answer leads to which error. What is left are the answers that yield a key. */
  lemma ResponseFailsIff(r: HttpResponse, status: nat)
    ensures FromResponse(r) == Err(BadStatus(status)) <==> r == Failure(status)
    ensures FromResponse(r) == Err(MalformedId) <==> r.Success? && !Readable(r.keys)
    ensures FromResponse(r) == Err(WrongKeyCount) <==> r.Success? && Readable(r.keys) && |r.keys| != 1
    ensures FromResponse(r) == Err(Panicked) <==>
            r.Success? && Readable(r.keys) && |r.keys| == 1 && Panics(r.keys[0].key)
    ensures FromResponse(r) == Err(WrongKeyLength) <==>
            && r.Success? && Readable(r.keys) && |r.keys| == 1 && !Panics(r.keys[0].key)
            && forall key: Key :: r.keys[0].key != Encode(key)
  {
    hide Encode, Decode, ParseStr, Panics;
    if r.Success? && |r.keys| == 1 {
      assert r.keys == [r.keys[0]];
      if Readable(r.keys) {
        ResponseCrashesIff(r.keys[0]);
        if !Panics(r.keys[0].key) {
          ReadableEntry(r.keys[0]);
        }
      }
    }
  }

  lemma ReadableEntry(entry: ResponseKey)
    requires ParseStr(entry.id).Some? && !Panics(entry.key)
    ensures TryFromKey(entry) == Err(WrongKeyLength) <==> forall key: Key :: entry.key != Encode(key)
    ensures TryFromKey(entry).Ok? || TryFromKey(entry) == Err(WrongKeyLength)
  {
    hide Encode, Decode, ParseStr;
    var bs: seq<byte> :| |bs| <= KEY_LENGTH && entry.key == Encode(bs);
    DecodeIff(entry.key, bs);
    forall key: Key | entry.key == Encode(key)
      ensures bs == key
    {
      DecodeIff(entry.key, key);
    }
    EncodeLength(bs);
  }

  // ---------------------------------------------------------------- requests

  function AnyKeyUri(url: string, sae: string): string {
    url + "/api/v1/keys/" + sae + "/enc_keys" + "?" + "number=1&key_length=256"
  }

  function SpecificKeyUri(url: string, sae: string, id: Uuid): string {
    url + "/api/v1/keys/" + sae + "/dec_keys" + "?" + ("key_ID=" + Format(id))
  }

  /** Path and query of a request, as the server sees them. */
  datatype HttpRequest = HttpRequest(path: string, query: Option<string>)

  /** `str::find`. */
  function Find(text: string, part: string): Option<nat> {
    if |text| < |part| then None
    else if text[..|part|] == part then Some(0)
    else if text == "" then None
    else
      var rest := Find(text[1..], part);
      if rest.None? then None else Some(rest.value + 1)
  }

  predicate Contains(text: string, part: string) {
    Find(text, part).Some?
  }

  /** The request for a URI below the configured base URL `url`. */
  function Request(url: string, uri: string): HttpRequest
    requires url <= uri
  {
    var target := uri[|url|..];
    var mark := Find(target, "?");
    if mark.None? then HttpRequest(target, None)
    else
      FindOccurs(target, "?");
      HttpRequest(target[..mark.value], Some(target[mark.value + 1..]))
  }

  predicate OccursAt(text: string, part: string, p: nat) {
    p + |part| <= |text| && text[p..p + |part|] == part
  }

  /** `Find` gives the first occurrence, if there is one. */
  lemma {:induction false} FindOccurs(text: string, part: string)
    ensures Find(text, part).Some? ==> OccursAt(text, part, Find(text, part).value)
    ensures forall p: nat | OccursAt(text, part, p) :: Find(text, part).Some? && Find(text, part).value <= p
  {
    if |text| >= |part| && text[..|part|] != part && text != "" {
      FindOccurs(text[1..], part);
      forall p: nat | OccursAt(text, part, p)
        ensures p > 0 && OccursAt(text[1..], part, p - 1)
      {
        assert text[1..][p - 1..p - 1 + |part|] == text[p..p + |part|];
      }
      if Find(text[1..], part).Some? {
        var q := Find(text[1..], part).value;
        assert text[1..][q..q + |part|] == text[q + 1..q + 1 + |part|];
      }
    }
  }

  lemma NoMark(path: string)
    requires '?' !in path
    ensures Find(path, "?").None?
  {
    hide Find;
    FindOccurs(path, "?");
    forall p: nat
      ensures !OccursAt(path, "?", p)
    {
      if p < |path| {
        assert path[p..p + 1] == [path[p]] && path[p] in path;
        assert [path[p]][0] != "?"[0];
      }
    }
  }

  /** A target without `?` in its path splits where the query begins. */
  lemma SplitsAtMark(path: string, query: string, url: string)
    requires '?' !in path
    ensures url <= url + path + "?" + query
    ensures Request(url, url + path + "?" + query) == HttpRequest(path, Some(query))
    ensures Request(url, url + path) == HttpRequest(path, None)
  {
    hide Find;
    NoMark(path);
    assert (url + path)[|url|..] == path;
    var uri := url + path + "?" + query;
    var target := path + "?" + query;
    assert uri[|url|..] == target;
    FindOccurs(target, "?");
    assert target[|path|..|path| + 1] == "?" && OccursAt(target, "?", |path|);
    forall p: nat | p < |path|
      ensures !OccursAt(target, "?", p)
    {
      assert target[p..p + 1] == [path[p]] && path[p] in path;
      assert [path[p]][0] != "?"[0];
    }
    assert target[..|path|] == path && target[|path| + 1..] == query;
  }
}
