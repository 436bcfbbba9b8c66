/** pynuki/utils.py: `sha256sum` and the hashed-token credential
    (`hash_token`). SHA-256 itself, the clock and the random number generator
    are inputs. */
module Utils {
  import opened Json
  import opened Text
  import opened Params
  import opened Encoding

  /** What the model assumes of the SHA-256 function it is given: a 32-byte
      digest for every message. */
  ghost predicate IsSha256Shaped(sha256: seq<byte> -> seq<byte>)
  {
    forall m :: |sha256(m)| == 32
  }

  /** `sha256sum(text)`: the hex digest of the UTF-8 bytes of `text`. */
  function Sha256Sum(text: string, sha256: seq<byte> -> seq<byte>): (hex: string)
    requires IsSha256Shaped(sha256)
    ensures |hex| == 64
    ensures forall i :: 0 <= i < |hex| ==> IsLowerHex(hex[i])
    ensures HexDecode(hex) == sha256(EncodeUtf8(text))
    ensures DecodeUtf8(EncodeUtf8(text)) == Some(text)
  {
    var digest := sha256(EncodeUtf8(text));
    HexRoundTrip(digest);
    Utf8RoundTrip(text);
    HexEncode(digest)
  }

  /** A reading of `datetime.utcnow()`, down to the second. */
  datatype DateTime = DateTime(year: int, month: int, day: int, hour: int, minute: int, second: int)

  /** The clock readings the model covers; a four-digit year keeps `%Y` at
      four characters. */
  predicate ValidDateTime(t: DateTime)
  {
    && 1000 <= t.year <= 9999
    && 1 <= t.month <= 12
    && 1 <= t.day <= 31
    && 0 <= t.hour <= 23
    && 0 <= t.minute <= 59
    && 0 <= t.second <= 59
  }

  function Pow10(w: nat): nat
  {
    if w == 0 then 1 else 10 * Pow10(w - 1)
  }

  /** The last `width` decimal digits of `n`, zero-padded (`%02d`, `%04d`). */
  function Pad(n: nat, width: nat): (s: string)
    ensures |s| == width
    ensures forall i :: 0 <= i < |s| ==> IsDigit(s[i])
  {
    if width == 0 then "" else Pad(n / 10, width - 1) + [DigitChar(n % 10)]
  }

  lemma {:induction false} PadParses(n: nat, width: nat)
    requires n < Pow10(width)
    ensures ParseDigits(Pad(n, width)) == n
  {
    if width > 0 {
      PadParses(n / 10, width - 1);
      var s := Pad(n, width);
      assert s[..|s| - 1] == Pad(n / 10, width - 1);
    }
  }

  /** `strftime("%Y-%m-%dT%H:%M:%SZ")`. */
  function FormatTimestamp(t: DateTime): (s: string)
    requires ValidDateTime(t)
    ensures |s| == 20
    ensures s[4] == '-' && s[7] == '-' && s[10] == 'T' && s[13] == ':' && s[16] == ':' && s[19] == 'Z'
    ensures forall i :: 0 <= i < 20 && i !in {4, 7, 10, 13, 16, 19} ==> IsDigit(s[i])
  {
    Pad(t.year, 4) + "-" + Pad(t.month, 2) + "-" + Pad(t.day, 2) + "T"
      + Pad(t.hour, 2) + ":" + Pad(t.minute, 2) + ":" + Pad(t.second, 2) + "Z"
  }

  predicate AllDigits(s: string)
  {
    forall i :: 0 <= i < |s| ==> IsDigit(s[i])
  }

  /** How the bridge reads a `ts` parameter back. */
  function ParseTimestamp(s: string): Option<DateTime>
  {
    if |s| == 20 && s[4] == '-' && s[7] == '-' && s[10] == 'T' && s[13] == ':' && s[16] == ':' && s[19] == 'Z'
       && AllDigits(s[0..4]) && AllDigits(s[5..7]) && AllDigits(s[8..10])
       && AllDigits(s[11..13]) && AllDigits(s[14..16]) && AllDigits(s[17..19])
    then Some(DateTime(ParseDigits(s[0..4]), ParseDigits(s[5..7]), ParseDigits(s[8..10]),
                       ParseDigits(s[11..13]), ParseDigits(s[14..16]), ParseDigits(s[17..19])))
    else None
  }

  /** The formatted timestamp identifies the clock reading. */
  lemma TimestampRoundTrip(t: DateTime)
    requires ValidDateTime(t)
    ensures ParseTimestamp(FormatTimestamp(t)) == Some(t)
  {
    var s := FormatTimestamp(t);
    assert s[0..4] == Pad(t.year, 4);
    assert s[5..7] == Pad(t.month, 2);
    assert s[8..10] == Pad(t.day, 2);
    assert s[11..13] == Pad(t.hour, 2);
    assert s[14..16] == Pad(t.minute, 2);
    assert s[17..19] == Pad(t.second, 2);
    PadParses(t.year, 4);
    PadParses(t.month, 2);
    PadParses(t.day, 2);
    PadParses(t.hour, 2);
    PadParses(t.minute, 2);
    PadParses(t.second, 2);
  }

  /** `randint(0, 65535)`: both ends included. */
  type Nonce = x: int | 0 <= x <= 65535

  /** `f"{ts},{rnr},{token}"`: the text that is hashed. */
  function HashInput(ts: string, rnr: Nonce, token: Value): string
  {
    ts + "," + NatToString(rnr) + "," + Render(token)
  }

  /** How a receiver splits the hashed text at its first two commas. */
  function ParseHashInput(p: string): Option<(string, nat, string)>
  {
    match SplitFirst(p, ',')
    case None => None
    case Some(first) =>
      match SplitFirst(first.1, ',')
      case None => None
      case Some(second) =>
        if AllDigits(second.0) then Some((first.0, ParseDigits(second.0), second.1)) else None
  }

  /** The hashed text determines the timestamp, the nonce and the token, even
      when the token holds commas. */
  lemma HashInputRoundTrip(ts: string, rnr: Nonce, token: Value)
    requires ',' !in ts
    ensures ParseHashInput(HashInput(ts, rnr, token)) == Some((ts, rnr as nat, Render(token)))
  {
    var r := NatToString(rnr);
    var tail := r + "," + Render(token);
    assert HashInput(ts, rnr, token) == ts + [','] + tail;
    SplitFirstConcat(ts, tail, ',');
    assert tail == r + [','] + Render(token);
    SplitFirstConcat(r, Render(token), ',');
    ParseNatToString(rnr);
  }

  /** Two credentials drawn at different seconds or with different nonces
      hash different texts. */
  lemma HashInputInjective(t1: DateTime, r1: Nonce, t2: DateTime, r2: Nonce, token: Value)
    requires ValidDateTime(t1) && ValidDateTime(t2)
    requires HashInput(FormatTimestamp(t1), r1, token) == HashInput(FormatTimestamp(t2), r2, token)
    ensures t1 == t2 && r1 == r2
  {
    HashInputRoundTrip(FormatTimestamp(t1), r1, token);
    HashInputRoundTrip(FormatTimestamp(t2), r2, token);
    TimestampRoundTrip(t1);
    TimestampRoundTrip(t2);
  }

  /** `hash_token(token)` with the clock reading `now` and the nonce `rnr`. */
  function HashToken(token: Value, now: DateTime, rnr: Nonce, sha256: seq<byte> -> seq<byte>): (r: Dict)
    requires ValidDateTime(now) && IsSha256Shaped(sha256)
    ensures IsDict(r) && Keys(r) == ["ts", "rnr", "hash"]
    ensures Find(r, "ts") == Some(Str(FormatTimestamp(now)))
    ensures Find(r, "rnr") == Some(Int(rnr))
  {
    var ts := FormatTimestamp(now);
    var r := [("ts", Str(ts)), ("rnr", Int(rnr)), ("hash", Str(Sha256Sum(HashInput(ts, rnr, token), sha256)))];
    KeysAt(r);
    assert Keys(r) == ["ts", "rnr", "hash"];
    DistinctByIndex(Keys(r));
    FindAt(r, 0);
    FindAt(r, 1);
    r
  }

  /** The bridge's side of the scheme: rebuild the hashed text from the `ts`
      and `rnr` it received and its own copy of the token. */
  predicate BridgeAccepts(params: Dict, token: Value, sha256: seq<byte> -> seq<byte>)
    requires IsSha256Shaped(sha256)
  {
    match (Find(params, "ts"), Find(params, "rnr"), Find(params, "hash"))
    case (Some(Str(ts)), Some(Int(rnr)), Some(Str(h))) =>
      0 <= rnr <= 65535 && h == Sha256Sum(HashInput(ts, rnr, token), sha256)
    case _ => false
  }

  /** A hashed-token credential is accepted by a bridge holding the same
      token, and the hash is 64 lower-case hex digits. */
  lemma HashTokenAccepted(token: Value, now: DateTime, rnr: Nonce, sha256: seq<byte> -> seq<byte>)
    requires ValidDateTime(now) && IsSha256Shaped(sha256)
    ensures BridgeAccepts(HashToken(token, now, rnr, sha256), token, sha256)
    ensures match Find(HashToken(token, now, rnr, sha256), "hash")
            case Some(Str(h)) => |h| == 64 && forall i :: 0 <= i < 64 ==> IsLowerHex(h[i])
            case _ => false
  {
    var r := HashToken(token, now, rnr, sha256);
    FindAt(r, 2);
  }
}
