/** The simulated key server: a counter for key ids, and keys that are computed from their ids. */
module Simulator {
  import opened Wrappers
  import opened Bytes
  import opened Base64
  import opened UuidText
  import opened Kdf
  import opened Etsi014
  import opened KeyFile

  const U64: nat := 0x1_0000_0000_0000_0000

  /** The key filed under an id: the id, twice. */
  function KeyOf(id: Uuid): Key {
    id + id
  }

  function Answer(id: Uuid): HttpResponse {
    Success([ResponseKey(Format(id), Encode(KeyOf(id)))])
  }

  const PREFIX: string := "/api/v1/keys/"

  /** The answer to a request, and the counter afterwards. */
  function Respond(counter: nat, req: HttpRequest): (HttpResponse, nat) {
    if PREFIX <= req.path then RespondKeys(counter, req) else (Failure(404), counter)
  }

  function RespondKeys(counter: nat, req: HttpRequest): (HttpResponse, nat) {
    if !Contains(req.path, "dec_keys") && !Contains(req.path, "enc_keys") then (Failure(400), counter)
    else if Contains(req.path, "dec_keys") then
      if req.query.None? then (Failure(400), counter)
      else
        var pos := Find(req.query.value, "key_ID=");
        FindOccurs(req.query.value, "key_ID=");
        if pos.None? then (Failure(400), counter)
        else
          var id := ParseStr(req.query.value[pos.value + 7..]);
          if id.None? then (Failure(400), counter) else (Answer(id.value), counter)
    else (Answer(FromU128(counter)), (counter + 1) % U64)
  }

  class QkdSimulator {
    // An atomic 64-bit counter.
    var counter: nat

    constructor ()
      ensures counter == 1
    {
      counter := 1;
    }

    method HandleKeys(req: HttpRequest) returns (r: HttpResponse)
      requires counter < U64
      modifies this
      ensures counter < U64
      ensures (r, counter) == RespondKeys(old(counter), req)
    {
      hide Find, Format, ParseStr, Encode, FromU128;
      var isDec, isEnc := Contains(req.path, "dec_keys"), Contains(req.path, "enc_keys");
      if !isDec && !isEnc {
        return Failure(400);
      }
      var keyId: Uuid;
      if isDec {
        if req.query.None? {
          return Failure(400);
        }
        var pos := Find(req.query.value, "key_ID=");
        FindOccurs(req.query.value, "key_ID=");
        if pos.None? {
          return Failure(400);
        }
        var parsed := ParseStr(req.query.value[pos.value + 7..]);
        if parsed.None? {
          return Failure(400);
        }
        keyId := parsed.value;
      } else {
        keyId := FromU128(counter);
        counter := (counter + 1) % U64;
      }

      var keyInput := new byte[32](_ => 0);
      forall i | 0 <= i < 16 {
        keyInput[i] := keyId[i];
      }
      forall i | 16 <= i < 32 {
        keyInput[i] := keyId[i - 16];
      }
      assert keyInput[..] == KeyOf(keyId);

      var encBuf := new byte[128](_ => 0);
      var length := EncodeInto(keyInput[..], encBuf);
      return Success([ResponseKey(Format(keyId), encBuf[..length])]);
    }
  }

  // ---------------------------------------------------------------- fetching keys from it

  function FetchAny(counter: nat, url: string, sae: string): (Result<Etsi014Key, FetchError>, nat) {
    var (r, counter') := Respond(counter, Request(url, AnyKeyUri(url, sae)));
    (FromResponse(r), counter')
  }

  function FetchSpecific(counter: nat, url: string, sae: string, id: Uuid): (Result<Etsi014Key, FetchError>, nat) {
    var (r, counter') := Respond(counter, Request(url, SpecificKeyUri(url, sae, id)));
    (FromResponse(r), counter')
  }

  /** What the simulator answers is read as exactly the key and the id it stands for. */
  lemma AnswerIsUnderstood(id: Uuid)
    ensures FromResponse(Answer(id)) == Ok(Etsi014Key(id, KeyOf(id)))
    ensures KeyOf(id)[..16] == KeyOf(id)[16..] == id
  {
    hide Encode, Format, ParseStr;
    ParseFormat(id);
    ResponseYieldsKeyIff(Answer(id), Etsi014Key(id, KeyOf(id)));
  }

  lemma AnyKeyRequest(url: string, sae: string)
    requires '?' !in sae
    ensures Request(url, AnyKeyUri(url, sae)) ==
            HttpRequest(PREFIX + sae + "/enc_keys", Some("number=1&key_length=256"))
  {
    hide Request;
    var path := PREFIX + sae + "/enc_keys";
    assert AnyKeyUri(url, sae) == url + path + "?" + "number=1&key_length=256";
    SplitsAtMark(path, "number=1&key_length=256", url);
  }

  lemma SpecificKeyRequest(url: string, sae: string, id: Uuid)
    requires '?' !in sae
    ensures Request(url, SpecificKeyUri(url, sae, id)) ==
            HttpRequest(PREFIX + sae + "/dec_keys", Some("key_ID=" + Format(id)))
  {
    hide Format, Request;
    var path := PREFIX + sae + "/dec_keys";
    assert SpecificKeyUri(url, sae, id) == url + path + "?" + ("key_ID=" + Format(id));
    SplitsAtMark(path, "key_ID=" + Format(id), url);
  }

  /** The path of an `enc_keys` request mentions `dec_keys` only if the SAE id does. */
  lemma EncPathIsUnambiguous(sae: string)
    ensures Contains(PREFIX + sae + "/enc_keys", "dec_keys") <==> Contains(sae, "dec_keys")
    ensures Contains(PREFIX + sae + "/enc_keys", "enc_keys")
  {
    hide Find;
    var path := PREFIX + sae + "/enc_keys";
    var n := |sae|;
    FindOccurs(path, "dec_keys");
    FindOccurs(path, "enc_keys");
    FindOccurs(sae, "dec_keys");
    assert path[13 + n + 1..] == "enc_keys";
    assert OccursAt(path, "enc_keys", 13 + n + 1);
    if Contains(sae, "dec_keys") {
      var p := Find(sae, "dec_keys").value;
      assert path[13 + p..13 + p + 8] == sae[p..p + 8];
      assert OccursAt(path, "dec_keys", 13 + p);
    }
    if Contains(path, "dec_keys") {
      var p := Find(path, "dec_keys").value;
      var window := path[p..p + 8];
      OccursInSaeOnly(path, p, n);
      assert sae[p - 13..p - 13 + 8] == window;
      assert OccursAt(sae, "dec_keys", p - 13);
    }
  }

  /** A text occurs in a place only if that place has none but its characters. */
  lemma OccurrenceAvoids(text: string, part: string, p: nat, i: nat)
    requires OccursAt(text, part, p) && i < |text| && text[i] !in part
    ensures i < p || p + |part| <= i
  {
    assert forall k | p <= k < p + |part| :: text[k] == part[k - p];
  }

  lemma OccurrenceStarts(text: string, part: string, p: nat)
    requires OccursAt(text, part, p) && part != ""
    ensures text[p] == part[0]
  {
    assert text[p..p + |part|][0] == text[p];
  }

  lemma OccursInSaeOnly(path: string, p: nat, n: nat)
    requires |path| == 13 + n + 9 && path[..13] == PREFIX && path[13 + n..] == "/enc_keys"
    requires OccursAt(path, "dec_keys", p)
    ensures 13 <= p && p + 8 <= 13 + n
  {
    assert path[12] == path[..13][12] == '/';
    assert path[13 + n] == path[13 + n..][0] == '/';
    assert path[13 + n + 1] == path[13 + n..][1] == 'e';
    OccurrenceAvoids(path, "dec_keys", p, 12);
    OccurrenceAvoids(path, "dec_keys", p, 13 + n);
    OccurrenceStarts(path, "dec_keys", p);
    assert forall i | 0 <= i < 13 :: path[i] == path[..13][i];
  }

  /**
   `fetch_any_key` gets the key numbered by the counter, and moves the counter on, exactly when the
   SAE id does not contain `dec_keys`; otherwise the simulator takes it for the other kind of request
   and refuses it.
   */
  lemma FetchAnyIff(counter: nat, url: string, sae: string)
    requires '?' !in sae
    ensures FetchAny(counter, url, sae) ==
            if Contains(sae, "dec_keys") then (Err(BadStatus(400)), counter)
            else (Ok(Etsi014Key(FromU128(counter), KeyOf(FromU128(counter)))), (counter + 1) % U64)
  {
    hide Find, Format, Encode, Request, FromResponse, AnyKeyUri, FromU128;
    AnyKeyRequest(url, sae);
    EncPathIsUnambiguous(sae);
    AnswerIsUnderstood(FromU128(counter));
    var path := PREFIX + sae + "/enc_keys";
    assert PREFIX <= path;
    if Contains(sae, "dec_keys") {
      NoKeyIdInQuery();
      RefusedStatus();
    }
  }

  lemma RefusedStatus()
    ensures FromResponse(Failure(400)) == Err(BadStatus(400))
  {
  }

  lemma NoKeyIdInQuery()
    ensures Find("number=1&key_length=256", "key_ID=").None?
  {
    hide Find;
    var query, part := "number=1&key_length=256", "key_ID=";
    FindOccurs(query, part);
    assert 'I' !in query;
    forall p: nat
      ensures !OccursAt(query, part, p)
    {
      if p + 7 <= |query| {
        assert query[p..p + 7][4] == query[p + 4] && query[p + 4] in query;
      }
    }
  }

  /** `fetch_specific_key` gets the very id it asked for and the key filed under it. */
  lemma FetchSpecificEchoes(counter: nat, url: string, sae: string, id: Uuid)
    requires '?' !in sae
    ensures FetchSpecific(counter, url, sae, id) == (Ok(Etsi014Key(id, KeyOf(id))), counter)
  {
    hide Find, Format, ParseStr, Encode, Request, FromResponse, SpecificKeyUri;
    SpecificKeyRequest(url, sae, id);
    AnswerIsUnderstood(id);
    var path, query := PREFIX + sae + "/dec_keys", "key_ID=" + Format(id);
    assert PREFIX <= path;
    FindOccurs(path, "dec_keys");
    assert path[13 + |sae| + 1..] == "dec_keys";
    assert OccursAt(path, "dec_keys", 13 + |sae| + 1);
    FindOccurs(query, "key_ID=");
    assert query[0..7] == "key_ID=" && OccursAt(query, "key_ID=", 0);
    assert query[7..] == Format(id);
    ParseFormat(id);
  }

  /**
   The simulator is a faithful key server for the two hosts: whatever key one of them is issued, the
   other gets the same key under the same id when it asks for that id, whatever has been requested
   in between.
   */
  lemma IssuedKeyIsEchoed(
    counter: nat, later: nat, url: string, sae: string, url': string, sae': string, k: Etsi014Key)
    requires '?' !in sae && '?' !in sae'
    requires FetchAny(counter, url, sae).0 == Ok(k)
    ensures k.key == KeyOf(k.id)
    ensures FetchSpecific(later, url', sae', k.id) == (Ok(k), later)
  {
    hide Find, FetchAny, FetchSpecific, FromU128;
    FetchAnyIff(counter, url, sae);
    FetchSpecificEchoes(later, url', sae', k.id);
  }

  /** The request is served from the counter. */
  predicate Issues(req: HttpRequest) {
    PREFIX <= req.path && Contains(req.path, "enc_keys") && !Contains(req.path, "dec_keys")
  }

  /** The id that a query asks for: what follows the first `key_ID=`. */
  ghost predicate AsksFor(query: string, id: Uuid) {
    exists p: nat ::
      && OccursAt(query, "key_ID=", p) && (forall q: nat | q < p :: !OccursAt(query, "key_ID=", q))
      && ParseStr(query[p + 7..]) == Some(id)
  }

  lemma AsksForFound(query: string, id: Uuid)
    ensures AsksFor(query, id) <==>
            var pos := Find(query, "key_ID=");
            pos.Some? && pos.value + 7 <= |query| && ParseStr(query[pos.value + 7..]) == Some(id)
  {
    hide Find, ParseStr;
    FindOccurs(query, "key_ID=");
  }

  /**
   Requests that are not served from the counter: whatever mentions `dec_keys` is answered with the
   key asked for, everything else is refused, and the counter stays.
   */
  lemma LookupAnswers(counter: nat, req: HttpRequest, id: Uuid)
    requires !Issues(req)
    ensures Respond(counter, req).1 == counter
    ensures !(PREFIX <= req.path) ==> Respond(counter, req).0 == Failure(404)
    ensures PREFIX <= req.path ==> Respond(counter, req).0 == Failure(400) || Respond(counter, req).0.Success?
    ensures Respond(counter, req).0 == Answer(id) <==>
            PREFIX <= req.path && Contains(req.path, "dec_keys") && req.query.Some? && AsksFor(req.query.value, id)
    ensures Respond(counter, req).0.Success? <==>
            && PREFIX <= req.path && Contains(req.path, "dec_keys") && req.query.Some?
            && exists u: Uuid :: AsksFor(req.query.value, u)
  {
    hide Find, ParseStr, Answer, AsksFor, FromU128;
    if req.query.Some? {
      FindOccurs(req.query.value, "key_ID=");
      forall u: Uuid
        ensures AsksFor(req.query.value, u) <==>
                var pos := Find(req.query.value, "key_ID=");
                pos.Some? && pos.value + 7 <= |req.query.value| && ParseStr(req.query.value[pos.value + 7..]) == Some(u)
        ensures Answer(u).Success? && (Answer(u) == Answer(id) <==> u == id)
      {
        AsksForFound(req.query.value, u);
        AnswerDetermines(u, id);
        IsSuccess(u);
      }
    }
    IsSuccess(id);
  }

  lemma IsSuccess(id: Uuid)
    ensures Answer(id).Success?
  {
  }

  // ---------------------------------------------------------------- distinct ids

  /** The counter after a sequence of requests. */
  function CounterAfter(counter: nat, reqs: seq<HttpRequest>): nat {
    if reqs == [] then counter
    else
      var n := |reqs| - 1;
      Respond(CounterAfter(counter, reqs[..n]), reqs[n]).1
  }

  function ReplyAt(counter: nat, reqs: seq<HttpRequest>, i: nat): HttpResponse
    requires i < |reqs|
  {
    Respond(CounterAfter(counter, reqs[..i]), reqs[i]).0
  }

  function IssuedBy(reqs: seq<HttpRequest>): nat {
    if reqs == [] then 0
    else
      var n := |reqs| - 1;
      IssuedBy(reqs[..n]) + if Issues(reqs[n]) then 1 else 0
  }

  lemma {:induction false} CounterCounts(counter: nat, reqs: seq<HttpRequest>)
    requires counter < U64
    ensures CounterAfter(counter, reqs) == (counter + IssuedBy(reqs)) % U64
  {
    hide Find, FromU128, Format, ParseStr, Encode;
    if reqs != [] {
      var n := |reqs| - 1;
      CounterCounts(counter, reqs[..n]);
      StepCounts(CounterAfter(counter, reqs[..n]), reqs[n]);
      ModStep(counter + IssuedBy(reqs[..n]));
    }
  }

  lemma StepCounts(counter: nat, req: HttpRequest)
    ensures Respond(counter, req).1 == if Issues(req) then (counter + 1) % U64 else counter
    ensures Issues(req) ==> Respond(counter, req).0 == Answer(FromU128(counter))
  {
    hide Find, FromU128, Format, ParseStr, Encode;
  }

  lemma ModStep(n: nat)
    ensures (n % U64 + 1) % U64 == (n + 1) % U64
  {
  }

  lemma {:induction false} IssuedGrows(reqs: seq<HttpRequest>, i: nat, j: nat)
    requires i <= j <= |reqs|
    ensures IssuedBy(reqs[..i]) <= IssuedBy(reqs[..j]) <= IssuedBy(reqs[..i]) + (j - i)
    decreases j
  {
    hide Issues;
    if i < j {
      IssuedGrows(reqs, i, j - 1);
      assert reqs[..j][..j - 1] == reqs[..j - 1];
    }
  }

  /**
   Over every sequence of requests, two issued keys carry the same id exactly when a multiple of 2^64
   keys was issued from the one to the other: below 2^64 requests all issued ids are distinct.
   */
  lemma IssuedIdsDistinct(counter: nat, reqs: seq<HttpRequest>, i: nat, j: nat)
    requires counter < U64 && i < j < |reqs| && Issues(reqs[i]) && Issues(reqs[j])
    ensures ReplyAt(counter, reqs, i) == ReplyAt(counter, reqs, j) <==>
            (IssuedBy(reqs[..j]) - IssuedBy(reqs[..i])) % U64 == 0
    ensures |reqs| <= U64 ==> ReplyAt(counter, reqs, i) != ReplyAt(counter, reqs, j)
  {
    hide Find, Issues, Respond, FromU128, Format, ParseStr, Encode;
    var a, b := CounterAfter(counter, reqs[..i]), CounterAfter(counter, reqs[..j]);
    CounterCounts(counter, reqs[..i]);
    CounterCounts(counter, reqs[..j]);
    StepCounts(a, reqs[i]);
    StepCounts(b, reqs[j]);
    IssuedGrows(reqs, i + 1, j);
    assert reqs[..i + 1][..i] == reqs[..i];
    assert IssuedBy(reqs[..i + 1]) == IssuedBy(reqs[..i]) + 1;
    AnswerDetermines(FromU128(a), FromU128(b));
    FromU128Injective(a, b);
    SameRemainder(counter + IssuedBy(reqs[..i]), counter + IssuedBy(reqs[..j]));
    IssuedGrows(reqs, 0, i);
    IssuedGrows(reqs, i, j);
  }

  lemma AnswerDetermines(id: Uuid, id': Uuid)
    ensures Answer(id) == Answer(id') <==> id == id'
  {
    hide Format, ParseStr, Encode;
    ParseFormat(id);
    ParseFormat(id');
  }

  lemma SameRemainder(n: nat, m: nat)
    requires n <= m
    ensures n % U64 == m % U64 <==> (m - n) % U64 == 0
  {
  }
}
