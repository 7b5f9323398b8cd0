/** The signed browser cookie (app/auth_sessions.py): the printer of a V2 identity and
    the strict parser. The keyed hash and the JSON reader are parameters; base 64
    and the printed JSON text are written out. */
module AuthCookie {
  import opened Base64Url
  import opened Decimals
  import opened Options

  const MAX_EPOCH := 0x1F_FFFF_FFFF_FFFF

  datatype Identity = Identity(incarnation: string, incarnationDigest: string, generation: int, handle: string)

  /** The 32 bytes of an HMAC-SHA-256. */
  type Hmac = b: seq<Byte> | |b| == 32 witness seq(32, _ => 0)

  /** Under the fixed secret, from a label and a value. */
  type Signer = (string, string) -> Hmac

  function Digest(sign: Signer, tag: string, value: string): string {
    Encode(sign(tag, value))
  }

  lemma DigestShape(sign: Signer, tag: string, value: string)
    ensures |Digest(sign, tag, value)| == 43 && IsB64Url(Digest(sign, tag, value))
  {
    DecodeEncode(sign(tag, value));
  }

  predicate IsToken(s: string) {
    |s| == 43 && IsB64Url(s)
  }

  /** `v1.` and 43 letters of the alphabet. */
  predicate IsHandle(s: string) {
    |s| == 46 && s[..3] == "v1." && IsToken(s[3..])
  }

  predicate ValidIdentity(sign: Signer, id: Identity) {
    && IsToken(id.incarnation)
    && id.incarnationDigest == Digest(sign, "browser-authority", id.incarnation)
    && 1 <= id.generation <= MAX_EPOCH
    && IsHandle(id.handle)
  }

  // ---- The printer ---------------------------------------------------------------------------------

  /** Sorted keys, no spaces; none of the characters needs an escape. */
  function JsonText(generation: nat, handle: string, incarnation: string): string {
    "{\"g\":" + Digits(generation) + ",\"h\":\"" + handle + "\",\"i\":\"" + incarnation + "\"}"
  }

  predicate Ascii(s: string) {
    forall i :: 0 <= i < |s| ==> s[i] as int < 128
  }

  function Bytes(s: string): (b: seq<Byte>)
    requires Ascii(s)
    ensures |b| == |s| && forall i :: 0 <= i < |s| ==> b[i] == s[i] as int
  {
    seq(|s|, i requires 0 <= i < |s| => s[i] as int)
  }

  /** The characters of the bytes, if all are ASCII. */
  function Text(b: seq<Byte>): Option<string> {
    if exists i :: 0 <= i < |b| && b[i] >= 128 then None
    else Some(seq(|b|, i requires 0 <= i < |b| => b[i] as char))
  }

  lemma TokenAscii(s: string)
    requires IsToken(s)
    ensures Ascii(s)
  {
  }

  lemma HandleAscii(s: string)
    requires IsHandle(s)
    ensures Ascii(s)
  {
    TokenAscii(s[3..]);
    assert s == "v1." + s[3..];
    hide IsToken;
  }

  lemma AsciiConcat(a: string, b: string)
    requires Ascii(a) && Ascii(b)
    ensures Ascii(a + b)
  {
  }

  lemma JsonAscii(generation: nat, handle: string, incarnation: string)
    requires IsHandle(handle) && IsToken(incarnation)
    ensures Ascii(JsonText(generation, handle, incarnation))
  {
    HandleAscii(handle);
    TokenAscii(incarnation);
    var digits := Digits(generation);
    assert Ascii(digits) by { assert forall i :: 0 <= i < |digits| ==> IsDigit(digits[i]); }
    hide IsHandle, IsToken, Digits;
    var a := "{\"g\":" + digits;
    var b := a + ",\"h\":\"";
    var c := b + handle;
    var d := c + "\",\"i\":\"";
    var e := d + incarnation;
    AsciiConcat("{\"g\":", digits);
    AsciiConcat(a, ",\"h\":\"");
    AsciiConcat(b, handle);
    AsciiConcat(c, "\",\"i\":\"");
    AsciiConcat(d, incarnation);
    AsciiConcat(e, "\"}");
  }

  function Payload(sign: Signer, id: Identity): string
    requires ValidIdentity(sign, id)
  {
    JsonAscii(id.generation, id.handle, id.incarnation);
    Encode(Bytes(JsonText(id.generation, id.handle, id.incarnation)))
  }

  /** The cookie of a verified identity. */
  function Print(sign: Signer, id: Identity): string
    requires ValidIdentity(sign, id)
  {
    var payload := Payload(sign, id);
    "v2." + payload + "." + Digest(sign, "v2-cookie", payload)
  }

  // ---- The parser ----------------------------------------------------------------------------------

  /** The parts between the full stops. */
  function Split(s: string): (parts: seq<string>)
    ensures parts != []
  {
    if s == "" then [""]
    else
      var rest := Split(s[1..]);
      if s[0] == '.' then [""] + rest else [[s[0]] + rest[0]] + rest[1..]
  }

  function Join(parts: seq<string>): string
    requires parts != []
  {
    if |parts| == 1 then parts[0] else parts[0] + "." + Join(parts[1..])
  }

  datatype Json = JObject(fields: map<string, Json>) | JString(text: string) | JInt(number: int) | JOther

  /** The JSON reader; none where it raises. */
  type Reader = string -> Option<Json>

  datatype Parsed = V1(handle: string) | V2(identity: Identity) | Stale

  /** The identity a decoded payload claims, if its fields are of the right shape. */
  function Claimed(sign: Signer, json: Json): (r: Option<Identity>)
    ensures r.Some? ==> ValidIdentity(sign, r.value)
  {
    if !json.JObject? || json.fields.Keys != {"i", "g", "h"} then None
    else
      assert "i" in json.fields.Keys && "g" in json.fields.Keys && "h" in json.fields.Keys;
      var i, g, h := json.fields["i"], json.fields["g"], json.fields["h"];
      if !(i.JString? && IsToken(i.text)) || !g.JInt? || !(1 <= g.number <= MAX_EPOCH) || !(h.JString? && IsHandle(h.text)) then None
      else Some(Identity(i.text, Digest(sign, "browser-authority", i.text), g.number, h.text))
  }

  /** Base 64, ASCII and JSON, each of which may fail. */
  function Load(load: Reader, payload: string): Option<Json>
    requires IsB64Url(payload)
  {
    var decoded := Decode(payload);
    if decoded.None? then None
    else
      var text := Text(decoded.value);
      if text.None? then None else load(text.value)
  }

  function Parse(sign: Signer, load: Reader, cookie: string): Parsed {
    if IsHandle(cookie) then V1(cookie)
    else
      var parts := Split(cookie);
      if |parts| != 3 || parts[0] != "v2" || !IsB64Url(parts[1]) || !IsToken(parts[2]) then Stale
      else if parts[2] != Digest(sign, "v2-cookie", parts[1]) then Stale
      else
        var json := Load(load, parts[1]);
        if json.None? then Stale
        else
          var id := Claimed(sign, json.value);
          if id.None? || parts[1] != Payload(sign, id.value) then Stale else V2(id.value)
  }

  // ---- They undo each other ------------------------------------------------------------------------

  lemma {:induction false} JoinSplit(s: string)
    ensures Join(Split(s)) == s
  {
    if s != "" {
      JoinSplit(s[1..]);
      var rest := Split(s[1..]);
      if s[0] == '.' {
        assert ([""] + rest)[1..] == rest;
        assert s == "." + s[1..];
      } else {
        JoinHead(s[0], rest);
        assert s == [s[0]] + s[1..];
      }
    }
  }

  lemma JoinHead(c: char, parts: seq<string>)
    requires parts != []
    ensures Join([[c] + parts[0]] + parts[1..]) == [c] + Join(parts)
  {
    var joined := [[c] + parts[0]] + parts[1..];
    assert joined[1..] == parts[1..];
    if |parts| > 1 {
      assert [c] + parts[0] + "." + Join(parts[1..]) == [c] + (parts[0] + "." + Join(parts[1..]));
    }
  }

  lemma {:induction false} SplitWord(a: string, rest: string)
    requires '.' !in a
    ensures Split(a + "." + rest) == [a] + Split(rest)
    decreases |a|
  {
    var s := a + "." + rest;
    if a == "" {
      assert s[1..] == rest;
    } else {
      assert s[0] == a[0] && s[1..] == a[1..] + "." + rest;
      SplitWord(a[1..], rest);
      assert a == [a[0]] + a[1..];
      assert ([a[1..]] + Split(rest))[1..] == Split(rest);
    }
  }

  lemma {:induction false} SplitLast(a: string)
    requires '.' !in a
    ensures Split(a) == [a]
    decreases |a|
  {
    if a != "" {
      SplitLast(a[1..]);
      assert a == [a[0]] + a[1..];
    }
  }

  lemma NoStop(s: string)
    requires IsB64Url(s)
    ensures '.' !in s
  {
  }

  lemma SplitThree(a: string, b: string, c: string)
    requires '.' !in a && '.' !in b && '.' !in c
    ensures Split(a + "." + b + "." + c) == [a, b, c]
  {
    assert a + "." + b + "." + c == a + "." + (b + "." + c);
    SplitWord(a, b + "." + c);
    SplitWord(b, c);
    SplitLast(c);
  }

  lemma JoinThree(parts: seq<string>)
    requires |parts| == 3
    ensures Join(parts) == parts[0] + "." + parts[1] + "." + parts[2]
  {
    assert parts[1..][1..] == [parts[2]];
    assert Join(parts[1..]) == parts[1] + "." + parts[2];
    assert parts[0] + "." + (parts[1] + "." + parts[2]) == parts[0] + "." + parts[1] + "." + parts[2];
  }

  /** Any accepted V2 cookie is the printed form of its identity: no other
      spelling of the same payload is accepted, whatever the JSON reader takes. */
  lemma AcceptedIsPrinted(sign: Signer, load: Reader, cookie: string, id: Identity)
    requires Parse(sign, load, cookie) == V2(id)
    ensures ValidIdentity(sign, id) && cookie == Print(sign, id)
  {
    hide ValidIdentity, Payload, Load, Digest;
    var parts := Split(cookie);
    JoinSplit(cookie);
    JoinThree(parts);
    hide Split, Join;
    assert "v2" + "." + parts[1] + "." + parts[2] == "v2." + parts[1] + "." + parts[2];
  }

  /** In particular its payload is canonical base 64: the bits beyond the last byte
      are zero. */
  lemma AcceptedCanonical(sign: Signer, load: Reader, cookie: string)
    requires Parse(sign, load, cookie).V2?
    ensures |Split(cookie)| == 3 && IsB64Url(Split(cookie)[1]) && TrailingZero(Values(Split(cookie)[1]))
  {
    var id, payload := Parse(sign, load, cookie).identity, Split(cookie)[1];
    PayloadShape(sign, id);
    EncodeDecode(payload);
    hide Split, Decode, Encode, TrailingZero, Load, JsonText, Digest, Claimed;
  }

  /** The reader gets the printed texts right: the law assumed of the JSON library. */
  ghost predicate Lawful(load: Reader) {
    forall generation: nat, handle, incarnation ::
      1 <= generation <= MAX_EPOCH && IsHandle(handle) && IsToken(incarnation) ==>
        load(JsonText(generation, handle, incarnation)) ==
          Some(JObject(map["g" := JInt(generation), "h" := JString(handle), "i" := JString(incarnation)]))
  }

  lemma TextBytes(s: string)
    requires Ascii(s)
    ensures Text(Bytes(s)) == Some(s)
  {
    var b := Bytes(s);
    assert !(exists i :: 0 <= i < |b| && b[i] >= 128);
    assert seq(|b|, i requires 0 <= i < |b| => b[i] as char) == s;
  }

  lemma PayloadShape(sign: Signer, id: Identity)
    requires ValidIdentity(sign, id)
    ensures IsB64Url(Payload(sign, id))
    ensures Decode(Payload(sign, id)) == Some(Bytes(JsonText(id.generation, id.handle, id.incarnation)))
  {
    JsonAscii(id.generation, id.handle, id.incarnation);
    var text := JsonText(id.generation, id.handle, id.incarnation);
    assert text != "";
    DecodeEncode(Bytes(text));
    hide JsonText, Encode, Decode, IsHandle, IsToken, Digest;
  }

  lemma LoadPayload(sign: Signer, load: Reader, id: Identity)
    requires ValidIdentity(sign, id) && Lawful(load)
    ensures IsB64Url(Payload(sign, id))
    ensures Load(load, Payload(sign, id)) ==
      Some(JObject(map["g" := JInt(id.generation), "h" := JString(id.handle), "i" := JString(id.incarnation)]))
  {
    PayloadShape(sign, id);
    JsonAscii(id.generation, id.handle, id.incarnation);
    TextBytes(JsonText(id.generation, id.handle, id.incarnation));
    hide JsonText, Payload, Decode, Text, IsHandle, IsToken, Digest, IsB64Url;
  }

  lemma ClaimedBack(sign: Signer, id: Identity)
    requires ValidIdentity(sign, id)
    ensures Claimed(sign, JObject(map["g" := JInt(id.generation), "h" := JString(id.handle), "i" := JString(id.incarnation)])) == Some(id)
  {
    hide IsHandle, IsToken, Digest;
    var fields := map["g" := JInt(id.generation), "h" := JString(id.handle), "i" := JString(id.incarnation)];
    assert "g" != "h" && "h" != "i" && "g" != "i";
    assert fields.Keys == {"i", "g", "h"};
  }

  /** Parsing the printed form of a valid identity gives the identity back. */
  lemma PrintedParses(sign: Signer, load: Reader, id: Identity)
    requires ValidIdentity(sign, id) && Lawful(load)
    ensures Parse(sign, load, Print(sign, id)) == V2(id)
  {
    var payload := Payload(sign, id);
    var mac := Digest(sign, "v2-cookie", payload);
    var cookie := Print(sign, id);
    LoadPayload(sign, load, id);
    ClaimedBack(sign, id);
    DigestShape(sign, "v2-cookie", payload);
    NoStop(payload);
    NoStop(mac);
    SplitThree("v2", payload, mac);
    assert cookie == "v2" + "." + payload + "." + mac;
    assert cookie[1] == '2';
    NotHandle(cookie);
    hide ValidIdentity, Payload, Load, Digest, Claimed, Split, Lawful, IsHandle, Print, IsB64Url;
  }

  lemma NotHandle(s: string)
    requires |s| > 1 && s[1] == '2'
    ensures !IsHandle(s)
  {
    if |s| >= 3 { assert s[..3][1] == '2'; }
  }

  /** The two together: for a lawful reader a cookie is accepted for an identity
      exactly when the identity is valid and the cookie is its printed form. */
  lemma ParseExact(sign: Signer, load: Reader, cookie: string, id: Identity)
    requires Lawful(load)
    ensures Parse(sign, load, cookie) == V2(id) <==> ValidIdentity(sign, id) && cookie == Print(sign, id)
  {
    hide Parse, ValidIdentity, Print, Lawful;
    if Parse(sign, load, cookie) == V2(id) { AcceptedIsPrinted(sign, load, cookie, id); }
    if ValidIdentity(sign, id) && cookie == Print(sign, id) { PrintedParses(sign, load, id); }
  }

  // ---- A lawful reader exists ------------------------------------------------------------------------

  /** Reads exactly the printed texts: handle and incarnation have fixed widths. */
  function ReadPrinted(s: string): Option<Json> {
    if |s| < 109 then None
    else
      var n := |s|;
      var digits, handle, incarnation := s[5..n - 104], s[n - 98..n - 52], s[n - 45..n - 2];
      if !AllDigits(digits) then None
      else Some(JObject(map["g" := JInt(Decimal(digits)), "h" := JString(handle), "i" := JString(incarnation)]))
  }

  lemma PrintedFields(digits: string, handle: string, incarnation: string)
    requires |handle| == 46 && |incarnation| == 43
    ensures var s := "{\"g\":" + digits + ",\"h\":\"" + handle + "\",\"i\":\"" + incarnation + "\"}";
            var n := |s|;
            n == 109 + |digits| && s[5..n - 104] == digits && s[n - 98..n - 52] == handle && s[n - 45..n - 2] == incarnation
  {
  }

  lemma ReadPrintedLawful()
    ensures Lawful(ReadPrinted)
  {
    forall generation: nat, handle, incarnation
      | 1 <= generation <= MAX_EPOCH && IsHandle(handle) && IsToken(incarnation)
      ensures ReadPrinted(JsonText(generation, handle, incarnation)) ==
          Some(JObject(map["g" := JInt(generation), "h" := JString(handle), "i" := JString(incarnation)]))
    {
      PrintedFields(Digits(generation), handle, incarnation);
      DecimalOfDigits(generation);
      assert Digits(generation) != "";
      hide Decimal, Digits;
    }
  }

  /** Different identities have different cookies. */
  lemma PrintInjective(sign: Signer, a: Identity, b: Identity)
    requires ValidIdentity(sign, a) && ValidIdentity(sign, b) && Print(sign, a) == Print(sign, b)
    ensures a == b
  {
    ReadPrintedLawful();
    hide ValidIdentity, Print, Parse, Lawful;
    PrintedParses(sign, ReadPrinted, a);
    PrintedParses(sign, ReadPrinted, b);
  }
}
