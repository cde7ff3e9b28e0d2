/** Key files: the bounded reader, the Base64 key file loader, and the writer of the output key file. */
module KeyFile {
  import opened Wrappers
  import opened Bytes
  import opened Base64
  import opened ManagerModel

  /** Room for an encoded key and a trailing newline, `KEY_LENGTH * 4 / 3 + 4`. */
  const KEY_LENGTH_B64: nat := KEY_LENGTH * 4 / 3 + 4
  const NEWLINE: byte := 10

  // ---------------------------------------------------------------- the bounded reader

  /** `buf` with `chunk` at position `from`. */
  function Overwrite(buf: seq<byte>, from: nat, chunk: seq<byte>): seq<byte>
    requires from + |chunk| <= |buf|
  {
    buf[..from] + chunk + buf[from + |chunk|..]
  }

  /** `buf` with its first `n` bytes taken from `data`, and the rest as it was. */
  function Filled(data: seq<byte>, buf: seq<byte>, n: nat): seq<byte>
    requires n <= |data| && n <= |buf|
  {
    data[..n] + buf[n..]
  }

  lemma FillOn(data: seq<byte>, buf: seq<byte>, n: nat, count: nat)
    requires n + count <= |data| && n + count <= |buf|
    ensures Overwrite(Filled(data, buf, n), n, data[n..][..count]) == Filled(data, buf, n + count)
    ensures data[n..][count..] == data[n + count..]
  {
  }

  datatype IoError = WasInterrupted | OtherError

  /** What one call of `read` may do: return at most so many bytes, or fail. */
  datatype ReadOutcome = Upto(limit: nat) | Fails(error: IoError)

  /** How many bytes a successful call returns: 0 only at the end of the source. */
  function OneRead(left: nat, space: nat, schedule: seq<ReadOutcome>): (count: nat)
    ensures space > 0 ==> (count == 0 <==> left == 0)
    ensures count <= left && count <= space
  {
    if schedule != [] && schedule[0].Upto? then
      Min(Min(left, space), if schedule[0].limit == 0 then 1 else schedule[0].limit)
    else Min(left, space)
  }

  /**
   A readable source: the bytes still to come, and how the next calls behave. Once the schedule is
   used up, calls return as much as fits.
   */
  class Source {
    var data: seq<byte>
    var schedule: seq<ReadOutcome>

    constructor (data: seq<byte>, schedule: seq<ReadOutcome>)
      ensures this.data == data && this.schedule == schedule
    {
      this.data := data;
      this.schedule := schedule;
    }

    /** `std::io::Read::read` into `buf[from..]`: 0 bytes only at the end of the source. */
    method Read(buf: array<byte>, from: nat) returns (r: Result<nat, IoError>)
      requires from < buf.Length
      modifies this, buf
      ensures schedule == if old(schedule) == [] then [] else old(schedule)[1..]
      ensures r.Err? <==> old(schedule) != [] && old(schedule)[0].Fails?
      ensures r.Err? ==> r.error == old(schedule)[0].error && data == old(data) && buf[..] == old(buf[..])
      ensures r.Ok? ==>
                && r.value <= |old(data)| && from + r.value <= buf.Length
                && r.value == OneRead(|old(data)|, buf.Length - from, old(schedule))
                && data == old(data)[r.value..]
                && buf[..] == Overwrite(old(buf[..]), from, old(data)[..r.value])
    {
      var limit := buf.Length - from;
      if schedule != [] {
        var next := schedule[0];
        schedule := schedule[1..];
        if next.Fails? {
          return Err(next.error);
        }
        // A successful read of a non-empty source makes progress
        limit := if next.limit == 0 then 1 else if next.limit < limit then next.limit else limit;
      }
      var n := if |data| < limit then |data| else limit;
      forall i | 0 <= i < n {
        buf[from + i] := data[i];
      }
      data := data[n..];
      return Ok(n);
    }
  }

  lemma FilledNone(data: seq<byte>, buf: seq<byte>)
    ensures Filled(data, buf, 0) == buf
  {
  }

  /**
   What reading `left` bytes into `space` comes to, call by call: interrupted calls are repeated, any
   other error is final, and nothing is called any more once the buffer is full or the source ends.
   */
  function Reading(left: nat, space: nat, schedule: seq<ReadOutcome>): Result<nat, IoError>
    decreases |schedule|
  {
    if space == 0 then Ok(0)
    else if schedule == [] then Ok(Min(left, space))
    else
      match schedule[0]
      case Fails(error) => if error == WasInterrupted then Reading(left, space, schedule[1..]) else Err(error)
      case Upto(_) =>
        var count := OneRead(left, space, schedule);
        if count == 0 then Ok(0) else Plus(count, Reading(left - count, space - count, schedule[1..]))
  }

  function Plus(count: nat, rest: Result<nat, IoError>): Result<nat, IoError> {
    if rest.Ok? then Ok(count + rest.value) else rest
  }

  /** A successful read has read all there is room for; without errors in the schedule it succeeds. */
  lemma {:induction false} ReadingIsFull(left: nat, space: nat, schedule: seq<ReadOutcome>)
    ensures var r := Reading(left, space, schedule);
            if r.Ok? then r.value == Min(left, space)
            else r.error == OtherError && Fails(OtherError) in schedule && space > 0
    decreases |schedule|
  {
    if schedule != [] && space > 0 {
      assert schedule[0] in schedule;
      match schedule[0]
      case Fails(error) => ReadingIsFull(left, space, schedule[1..]);
      case Upto(_) =>
        var count := OneRead(left, space, schedule);
        ReadingIsFull(left - count, space - count, schedule[1..]);
    }
  }

  /** Reads until the buffer is full or the source ends, retrying interrupted calls. */
  method ReadToEndUpTo(source: Source, buf: array<byte>) returns (r: Result<nat, IoError>)
    modifies source, buf
    ensures r == Reading(|old(source.data)|, buf.Length, old(source.schedule))
    ensures r.Ok? ==>
              && r.value == Min(|old(source.data)|, buf.Length)
              && buf[..] == Filled(old(source.data), old(buf[..]), r.value)
              && source.data == old(source.data)[r.value..]
    ensures r.Err? ==> r.error == OtherError && Fails(OtherError) in old(source.schedule)
    ensures r.Err? ==>
              exists n: nat | n <= |old(source.data)| && n <= buf.Length ::
                buf[..] == Filled(old(source.data), old(buf[..]), n) && source.data == old(source.data)[n..]
  {
    hide Filled, Overwrite;
    FilledNone(source.data, buf[..]);
    ReadingIsFull(|source.data|, buf.Length, source.schedule);
    var red := 0;
    ghost var all, before := source.data, buf[..];
    while true
      invariant red <= |all| && red <= buf.Length
      invariant source.data == all[red..]
      invariant buf[..] == Filled(all, before, red)
      invariant Reading(|all|, buf.Length, old(source.schedule)) ==
                Plus(red, Reading(|source.data|, buf.Length - red, source.schedule))
      decreases |source.schedule| + (buf.Length - red)
    {
      if red == buf.Length {
        return Ok(red);
      }
      var outcome := source.Read(buf, red);
      match outcome
      case Ok(count) =>
        FillOn(all, before, red, count);
        if count == 0 {
          return Ok(red);
        }
        red := red + count;
      case Err(error) =>
        if error != WasInterrupted {
          return Err(error);
        }
    }
  }

  // ---------------------------------------------------------------- loading

  /** `base64_to_key`: the decoded bytes at the front of a zeroed key. */
  function Base64ToKey(text: seq<byte>): Option<Key> {
    var bs := DecodeInto(text, KEY_LENGTH);
    if bs.None? then None else Some(bs.value + Zeros(KEY_LENGTH - |bs.value|))
  }

  function Trim(text: seq<byte>): seq<byte> {
    if text != [] && text[|text| - 1] == NEWLINE then text[..|text| - 1] else text
  }

  /** The key that a file with these contents stands for, if any. */
  function LoadKey(contents: seq<byte>): Option<Key> {
    Base64ToKey(Trim(contents[..Min(|contents|, KEY_LENGTH_B64)]))
  }

  method LoadBase64KeyFile(file: Source) returns (r: Result<Option<Key>, IoError>)
    modifies file
    ensures r.Err? <==> Reading(|old(file.data)|, KEY_LENGTH_B64, old(file.schedule)).Err?
    ensures r.Err? ==> r.error == OtherError && Fails(OtherError) in old(file.schedule)
    ensures r.Ok? ==> r.value == LoadKey(old(file.data))
  {
    var psk := new byte[KEY_LENGTH_B64](_ => 0);
    var outcome := ReadToEndUpTo(file, psk);
    if outcome.Err? {
      return Err(outcome.error);
    }
    var text := psk[..outcome.value];
    if text != [] && text[|text| - 1] == NEWLINE {
      text := text[..|text| - 1];
    }
    return Ok(Base64ToKey(text));
  }

  // ---------------------------------------------------------------- writing

  /** `Base64::encode` into a large enough buffer; returns the length of the text. */
  method EncodeInto(bs: seq<byte>, buf: array<byte>) returns (length: nat)
    requires EncodedLen(|bs|) <= buf.Length
    modifies buf
    ensures length == EncodedLen(|bs|) && buf[..length] == Encode(bs)
  {
    EncodeLength(bs);
    var text := Encode(bs);
    length := |text|;
    forall i | 0 <= i < length {
      buf[i] := text[i];
    }
  }

  class OutfileOskHandler {
    // The contents of the output key file.
    var contents: seq<byte>

    constructor ()
    {
      contents := [];
    }

    method SetOsk(key: Key, reason: SetOskReason) returns (why: string)
      modifies this
      ensures contents == Encode(key)
      ensures why == if reason == Fresh then "exchanged" else "stale"
    {
      why := match reason case Fresh => "exchanged" case Stale => "stale";
      var buf := new byte[KEY_LENGTH_B64](_ => 0);
      var length := EncodeInto(key, buf);
      contents := buf[..length];
    }
  }

  // ---------------------------------------------------------------- what the files mean

  lemma {:induction false} EncodingHasNoNewline(bs: seq<byte>)
    ensures NEWLINE !in Encode(bs)
  {
    hide Split;
    if |bs| > 3 {
      EncodingHasNoNewline(bs[3..]);
    }
  }

  lemma DecodableLength(text: seq<byte>)
    requires Decode(text).Some?
    ensures |text| % 4 == 0
  {
    hide Encode, Decode;
    EncodeDecode(text);
    EncodeLength(Decode(text).value);
  }

  /** Files of 46 bytes or more are rejected, whatever they contain. */
  lemma LongFileRejected(contents: seq<byte>)
    requires |contents| >= 46
    ensures LoadKey(contents) == None
  {
    hide Decode;
    var text := Trim(contents[..KEY_LENGTH_B64]);
    if Decode(text).Some? {
      DecodableLength(text);
    }
  }

  /** The file stands for these at most 32 bytes, padded with zeros, with or without a newline. */
  ghost predicate Spells(contents: seq<byte>, bs: seq<byte>, key: Key) {
    && |bs| <= KEY_LENGTH && key == bs + Zeros(KEY_LENGTH - |bs|)
    && (contents == Encode(bs) || contents == Encode(bs) + [NEWLINE])
  }

  lemma LoadedIsSpelled(contents: seq<byte>, key: Key)
    requires LoadKey(contents) == Some(key)
    ensures exists bs :: Spells(contents, bs, key)
  {
    hide Encode, Decode;
    if |contents| >= KEY_LENGTH_B64 {
      LongFileRejected(contents);
    } else {
      assert contents[..|contents|] == contents;
      var text := Trim(contents);
      EncodeDecode(text);
      assert contents == text || contents == text + [NEWLINE];
      assert Spells(contents, Decode(text).value, key);
    }
  }

  lemma SpelledIsLoaded(contents: seq<byte>, bs: seq<byte>, key: Key)
    requires Spells(contents, bs, key)
    ensures LoadKey(contents) == Some(key)
  {
    hide Encode, Decode;
    EncodeLength(bs);
    EncodingHasNoNewline(bs);
    DecodeEncode(bs);
    assert contents[..|contents|] == contents;
    assert Trim(contents) == Encode(bs);
  }

  /** Exactly which files load, and as which key. */
  lemma LoadKeyIff(contents: seq<byte>, key: Key)
    ensures LoadKey(contents) == Some(key) <==> exists bs :: Spells(contents, bs, key)
  {
    hide LoadKey, Spells;
    if LoadKey(contents) == Some(key) {
      LoadedIsSpelled(contents, key);
    }
    if bs :| Spells(contents, bs, key) {
      SpelledIsLoaded(contents, bs, key);
    }
  }

  /** A key survives the trip through its file, with or without a trailing newline. */
  lemma KeyFileRoundTrip(key: Key)
    ensures LoadKey(Encode(key)) == Some(key)
    ensures LoadKey(Encode(key) + [NEWLINE]) == Some(key)
  {
    assert key + Zeros(0) == key;
    SpelledIsLoaded(Encode(key), key, key);
    SpelledIsLoaded(Encode(key) + [NEWLINE], key, key);
  }

  /** What the output key handler writes, the key file loader reads back. */
  method WriteThenLoad(handler: OutfileOskHandler, key: Key, reason: SetOskReason) returns (loaded: Option<Key>)
    modifies handler
    ensures loaded == Some(key)
  {
    var _ := handler.SetOsk(key, reason);
    var file := new Source(handler.contents, []);
    var r := LoadBase64KeyFile(file);
    KeyFileRoundTrip(key);
    loaded := r.value;
  }
}
