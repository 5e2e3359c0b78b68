/** The signed workspace assertion: its text form, signing and checking (`app/edge/assertion.py`). */
module AssertionToken {
  import opened Wrappers
  import opened Texts

  type Byte = b: int | 0 <= b < 256
  type Sextet = v: int | 0 <= v < 64

  // --- base64url (section 5 of RFC 4648) ---------------------------------------------------------

  function Letter(v: Sextet): char {
    if v < 26 then ('A' as int + v) as char
    else if v < 52 then ('a' as int + v - 26) as char
    else if v < 62 then ('0' as int + v - 52) as char
    else if v == 62 then '-' else '_'
  }

  /** The value of a letter; the standard alphabet's two symbols are read as well. */
  function ValueOf(c: char): Option<Sextet> {
    if 'A' <= c <= 'Z' then Some(c as int - 'A' as int)
    else if 'a' <= c <= 'z' then Some(c as int - 'a' as int + 26)
    else if '0' <= c <= '9' then Some(c as int - '0' as int + 52)
    else if c == '-' || c == '+' then Some(62)
    else if c == '_' || c == '/' then Some(63)
    else None
  }

  function Group(a: Byte, b: Byte, c: Byte): seq<Sextet> {
    [a / 4, a % 4 * 16 + b / 16, b % 16 * 4 + c / 64, c % 64]
  }

  function Sextets(data: seq<Byte>): seq<Sextet> {
    if data == [] then []
    else if |data| == 1 then [data[0] / 4, data[0] % 4 * 16]
    else if |data| == 2 then [data[0] / 4, data[0] % 4 * 16 + data[1] / 16, data[1] % 16 * 4]
    else Group(data[0], data[1], data[2]) + Sextets(data[3..])
  }

  function Letters(vs: seq<Sextet>): string {
    seq(|vs|, i requires 0 <= i < |vs| => Letter(vs[i]))
  }

  /** The signs that fill up the last group of four letters. */
  function Padding(letters: nat): string {
    seq((4 - letters % 4) % 4, _ => '=')
  }

  function StripRight(s: string, mark: char): string {
    if s != [] && s[|s| - 1] == mark then StripRight(s[..|s| - 1], mark) else s
  }

  function B64(data: seq<Byte>): string {
    StripRight(Letters(Sextets(data)) + Padding(|Sextets(data)|), '=')
  }

  // The lenient decoder's position within a group of four letters, the bits it carries over, and
  // the padding signs since the last letter.
  datatype Scan = Scan(position: nat, left: int, pads: nat) {
    ghost predicate Valid() {
      position < 4 && 0 <= left < (if position == 3 then 4 else if position == 2 then 16 else 64)
    }
  }

  const START: Scan := Scan(0, 0, 0)

  /** The byte a letter completes, if it completes one, and where the scan is then. */
  function Feed(at: Scan, v: Sextet): (fed: (seq<Byte>, Scan))
    requires at.Valid()
    ensures fed.1.Valid()
  {
    if at.position == 0 then ([], Scan(1, v, 0))
    else if at.position == 1 then ([at.left * 4 + v / 16], Scan(2, v % 16, 0))
    else if at.position == 2 then ([at.left * 16 + v / 4], Scan(3, v % 4, 0))
    else ([at.left * 64 + v], START)
  }

  function Prepend(bytes: seq<Byte>, rest: Option<seq<Byte>>): Option<seq<Byte>> {
    if rest.None? then None else Some(bytes + rest.value)
  }

  /** The lenient decoder: letters outside the alphabet are skipped, complete padding ends the text. */
  function Decode(s: string, at: Scan): Option<seq<Byte>>
    requires at.Valid()
  {
    if s == [] then if at.position == 0 then Some([]) else None
    else if s[0] == '=' then
      if at.position >= 2 && at.position + at.pads + 1 >= 4 then Some([])
      else Decode(s[1..], if at.position >= 2 then at.(pads := at.pads + 1) else at)
    else if ValueOf(s[0]).None? then Decode(s[1..], at)
    else
      var fed := Feed(at, ValueOf(s[0]).value);
      Prepend(fed.0, Decode(s[1..], fed.1))
  }

  function Unb64(text: string): Option<seq<Byte>> {
    if exists c | c in text :: c as int >= 128 then None else Decode(text + Padding(|text|), START)
  }

  /** The bytes a run of letters completes, and where the scan is then. */
  function FeedAll(at: Scan, vs: seq<Sextet>): (fed: (seq<Byte>, Scan))
    requires at.Valid()
    ensures fed.1.Valid()
    decreases |vs|
  {
    if vs == [] then ([], at)
    else
      var first := Feed(at, vs[0]);
      var rest := FeedAll(first.1, vs[1..]);
      (first.0 + rest.0, rest.1)
  }

  lemma LetterValue(v: Sextet)
    ensures ValueOf(Letter(v)) == Some(v) && Letter(v) != '=' && Letter(v) != '.' && Letter(v) as int < 128
  {
  }

  lemma {:induction false} LettersFeed(vs: seq<Sextet>, rest: string, at: Scan)
    requires at.Valid()
    ensures Decode(Letters(vs) + rest, at) == Prepend(FeedAll(at, vs).0, Decode(rest, FeedAll(at, vs).1))
  {
    if vs == [] {
      assert Letters(vs) + rest == rest;
      var tail := Decode(rest, at);
      assert tail.Some? ==> [] + tail.value == tail.value;
    } else {
      var first := Feed(at, vs[0]);
      var s := Letters(vs) + rest;
      LetterValue(vs[0]);
      assert s[1..] == Letters(vs[1..]) + rest;
      LettersFeed(vs[1..], rest, first.1);
      var more := FeedAll(first.1, vs[1..]);
      var tail := Decode(rest, more.1);
      assert tail.Some? ==> first.0 + (more.0 + tail.value) == first.0 + more.0 + tail.value;
    }
  }

  lemma FeedFirst(at: Scan, v: Sextet, rest: seq<Sextet>)
    requires at.Valid()
    ensures var fed, more := Feed(at, v), FeedAll(Feed(at, v).1, rest);
      FeedAll(at, [v] + rest) == (if at.position == 0 then more.0 else [fed.0[0]] + more.0, more.1)
  {
    assert ([v] + rest)[1..] == rest;
    var more := FeedAll(Feed(at, v).1, rest);
    assert [] + more.0 == more.0;
  }

  lemma GroupBits(a: Byte, b: Byte, c: Byte)
    ensures a / 4 * 4 + (a % 4 * 16 + b / 16) / 16 == a && (a % 4 * 16 + b / 16) % 16 == b / 16
    ensures b / 16 * 16 + (b % 16 * 4 + c / 64) / 4 == b && (b % 16 * 4 + c / 64) % 4 == c / 64
    ensures c / 64 * 64 + c % 64 == c
  {
  }

  lemma FeedShort(one: Sextet, two: Sextet, more: seq<Sextet>)
    ensures var rest := FeedAll(Scan(2, two % 16, 0), more);
      FeedAll(START, [one] + ([two] + more)) == ([one * 4 + two / 16] + rest.0, rest.1)
  {
    FeedFirst(START, one, [two] + more);
    FeedFirst(Scan(1, one, 0), two, more);
  }

  lemma FeedRest(left: int, three: Sextet, four: Sextet, more: seq<Sextet>)
    requires 0 <= left < 16
    ensures var rest := FeedAll(START, more);
      FeedAll(Scan(2, left, 0), [three] + ([four] + more)) ==
        ([left * 16 + three / 4] + ([three % 4 * 64 + four] + rest.0), rest.1)
  {
    FeedFirst(Scan(2, left, 0), three, [four] + more);
    FeedFirst(Scan(3, three % 4, 0), four, more);
  }

  /** The four sextets hold the bits of the three bytes. */
  predicate GroupOf(one: int, two: int, three: int, four: int, a: int, b: int, c: int) {
    one * 4 + two / 16 == a && two % 16 * 16 + three / 4 == b && three % 4 * 64 + four == c
  }

  lemma FeedFour(group: seq<Sextet>, a: Byte, b: Byte, c: Byte, more: seq<Sextet>)
    requires |group| == 4
    requires GroupOf(group[0], group[1], group[2], group[3], a, b, c)
    ensures FeedAll(START, group + more) == ([a, b, c] + FeedAll(START, more).0, FeedAll(START, more).1)
  {
    Regroup(group, more);
    FeedShort(group[0], group[1], [group[2]] + ([group[3]] + more));
    FeedRest(group[1] % 16, group[2], group[3], more);
    Regroup3(a, b, c, FeedAll(START, more).0);
  }

  lemma GroupIs(a: Byte, b: Byte, c: Byte)
    ensures var group := Group(a, b, c);
      GroupOf(group[0], group[1], group[2], group[3], a, b, c)
  {
    GroupBits(a, b, c);
  }

  lemma FeedGroup(a: Byte, b: Byte, c: Byte, more: seq<Sextet>)
    ensures FeedAll(START, Group(a, b, c) + more).0 == [a, b, c] + FeedAll(START, more).0
    ensures FeedAll(START, Group(a, b, c) + more).1 == FeedAll(START, more).1
  {
    GroupIs(a, b, c);
    FeedFour(Group(a, b, c), a, b, c, more);
  }

  lemma Regroup(group: seq<Sextet>, more: seq<Sextet>)
    requires |group| == 4
    ensures group + more == [group[0]] + ([group[1]] + ([group[2]] + ([group[3]] + more)))
  {
  }

  lemma Regroup3(a: Byte, b: Byte, c: Byte, more: seq<Byte>)
    ensures [a] + ([b] + ([c] + more)) == [a, b, c] + more
  {
  }

  lemma FeedOne(a: Byte)
    ensures FeedAll(START, Sextets([a])) == ([a], Scan(2, 0, 0))
  {
    var one, two := a / 4, a % 4 * 16;
    GroupBits(a, 0, 0);
    FeedShort(one, two, []);
    assert Sextets([a]) == [one] + ([two] + []);
    assert [a] + [] == [a];
  }

  lemma FeedTwo(a: Byte, b: Byte)
    ensures FeedAll(START, Sextets([a, b])) == ([a, b], Scan(3, 0, 0))
  {
    var one, two, three := a / 4, a % 4 * 16 + b / 16, b % 16 * 4;
    GroupBits(a, b, 0);
    FeedShort(one, two, [three]);
    assert FeedAll(Scan(2, two % 16, 0), [three]) == ([b], Scan(3, 0, 0)) by {
      FeedFirst(Scan(2, two % 16, 0), three, []);
      assert [three] + [] == [three] && [b] + [] == [b];
    }
    assert Sextets([a, b]) == [one] + ([two] + [three]);
    assert [a] + [b] == [a, b];
  }

  lemma SextetsMore(data: seq<Byte>)
    requires |data| > 2
    ensures Sextets(data) == Group(data[0], data[1], data[2]) + Sextets(data[3..])
    ensures |Sextets(data)| == 4 + |Sextets(data[3..])|
  {
  }

  lemma SameRemainder(n: nat)
    ensures (4 + n) % 4 == n % 4
  {
  }

  lemma FirstThree(data: seq<Byte>)
    requires |data| > 2
    ensures [data[0], data[1], data[2]] + data[3..] == data
  {
  }

  lemma FeedMore(data: seq<Byte>, rest: seq<Sextet>)
    requires |data| > 2 && FeedAll(START, rest).0 == data[3..]
    ensures FeedAll(START, Group(data[0], data[1], data[2]) + rest) == (data, FeedAll(START, rest).1)
  {
    FeedGroup(data[0], data[1], data[2], rest);
    FirstThree(data);
  }

  lemma FeedLast(data: seq<Byte>)
    requires |data| <= 2
    ensures FeedAll(START, Sextets(data)) == (data, Scan(|Sextets(data)| % 4, 0, 0))
    ensures |Sextets(data)| % 4 != 1
  {
    if |data| == 1 {
      FeedOne(data[0]);
      assert data == [data[0]];
    } else if |data| == 2 {
      FeedTwo(data[0], data[1]);
      assert data == [data[0], data[1]];
    }
  }

  /** Where the scan ends: a last group of two or three letters leaves no bits over. */
  lemma {:induction false} SextetsFeed(data: seq<Byte>)
    ensures FeedAll(START, Sextets(data)) == (data, Scan(|Sextets(data)| % 4, 0, 0))
    ensures |Sextets(data)| % 4 != 1
  {
    if |data| <= 2 {
      FeedLast(data);
    } else {
      SextetsFeed(data[3..]);
      SextetsMore(data);
      SameRemainder(|Sextets(data[3..])|);
      FeedMore(data, Sextets(data[3..]));
    }
  }

  lemma {:induction false} StripPadding(s: string, n: nat)
    requires s == [] || s[|s| - 1] != '='
    ensures StripRight(s + seq(n, _ => '='), '=') == s
  {
    var padded := s + seq(n, _ => '=');
    if n == 0 {
      assert padded == s;
    } else {
      assert padded[..|padded| - 1] == s + seq(n - 1, _ => '=');
      StripPadding(s, n - 1);
    }
  }

  /** What the encoding is once its padding is stripped: letters alone. */
  lemma OnlyLetters(data: seq<Byte>)
    ensures B64(data) == Letters(Sextets(data))
    ensures forall c | c in B64(data) :: c != '.' && c as int < 128
  {
    var vs := Sextets(data);
    forall i | 0 <= i < |vs|
      ensures Letter(vs[i]) != '=' && Letter(vs[i]) != '.' && Letter(vs[i]) as int < 128
    {
      LetterValue(vs[i]);
    }
    StripPadding(Letters(vs), |Padding(|vs|)|);
  }

  /** Stripping the padding loses nothing: every byte string is read back exactly. */
  lemma Base64RoundTrip(data: seq<Byte>)
    ensures Unb64(B64(data)) == Some(data)
  {
    var vs := Sextets(data);
    OnlyLetters(data);
    SextetsFeed(data);
    LettersFeed(vs, Padding(|vs|), START);
    PaddingEnds(|vs|);
    assert data + [] == data;
  }

  lemma PaddingEnds(letters: nat)
    requires letters % 4 != 1
    ensures Decode(Padding(letters), Scan(letters % 4, 0, 0)) == Some([])
  {
  }

  // --- tokens ------------------------------------------------------------------------------------

  datatype Payload = Payload(
    applicationId: string, domainId: string, reference: string, hostname: string,
    issuedAt: int, expiresAt: int, requestId: string)

  datatype Assertion = Assertion(payload: Payload, keyId: string)

  datatype Invalid =
    | Missing | Malformed | UnknownKey | BadSignature | NotYetValid | Expired | WrongApplication | WrongHostname

  // JSON and the keyed hash, as abstract functions.
  datatype Codec = Codec(
    dumps: Payload -> seq<Byte>,
    loads: seq<Byte> -> Option<Payload>,
    mac: (string, string) -> seq<Byte>)
  {
    ghost predicate ReadsBack() {
      forall p: Payload :: loads(dumps(p)) == Some(p)
    }
  }

  const VERSION := "v1"

  function SigningInput(keyId: string, payload: string): string {
    VERSION + "." + keyId + "." + payload
  }

  function Sign(codec: Codec, keyId: string, key: string, payload: Payload): string {
    var text := B64(codec.dumps(payload));
    SigningInput(keyId, text) + "." + B64(codec.mac(key, SigningInput(keyId, text)))
  }

  function Split(s: string, mark: char): (parts: seq<string>)
    ensures |parts| == 1 + Count(s, mark)
  {
    if s == [] then [[]]
    else
      var rest := Split(s[1..], mark);
      if s[0] == mark then [[]] + rest else [[s[0]] + rest[0]] + rest[1..]
  }

  /** What both verifications do before they look at the clock and at the expected values. */
  function Open(codec: Codec, token: string, keys: map<string, string>): Result<Assertion, Invalid> {
    var parts := Split(token, '.');
    if token == "" then Failure(Missing)
    else if |parts| != 4 || parts[0] != VERSION then Failure(Malformed)
    else if parts[1] !in keys then Failure(UnknownKey)
    else
      var given := Unb64(parts[3]);
      var payload := Unb64(parts[2]);
      if given.None? then Failure(Malformed)
      else if given.value != codec.mac(keys[parts[1]], SigningInput(parts[1], parts[2])) then Failure(BadSignature)
      else if payload.None? || codec.loads(payload.value).None? then Failure(Malformed)
      else Success(Assertion(codec.loads(payload.value).value, parts[1]))
  }

  function CheckClock(assertion: Assertion, now: int, skew: int): Result<Assertion, Invalid> {
    if assertion.payload.issuedAt > now + skew then Failure(NotYetValid)
    else if assertion.payload.expiresAt + skew < now then Failure(Expired)
    else Success(assertion)
  }

  /** `verify` of the service. */
  function Verify(codec: Codec, token: string, keys: map<string, string>, applicationId: Option<string>,
                  hostname: Option<string>, now: int, skew: int): Result<Assertion, Invalid> {
    var assertion :- Open(codec, token, keys);
    var current :- CheckClock(assertion, now, skew);
    if applicationId.Some? && current.payload.applicationId != applicationId.value then Failure(WrongApplication)
    else if hostname.Some? && current.payload.hostname != hostname.value then Failure(WrongHostname)
    else Success(current)
  }

  /** `verify_assertion` of the SDK, which the origins run. */
  function VerifyAtOrigin(codec: Codec, token: string, keys: map<string, string>, applicationId: string,
                          hostname: Option<string>, now: int, skew: int): Result<Assertion, Invalid> {
    var assertion :- Open(codec, token, keys);
    var current :- CheckClock(assertion, now, skew);
    if current.payload.applicationId != applicationId then Failure(WrongApplication)
    else if hostname.Some? && current.payload.hostname != StripRight(Lower(hostname.value), '.') then
      Failure(WrongHostname)
    else Success(current)
  }

  lemma {:induction false} SplitFirst(first: string, mark: char, rest: string)
    requires mark !in first
    ensures Split(first + [mark] + rest, mark) == [first] + Split(rest, mark)
  {
    var s := first + [mark] + rest;
    if first == [] {
      assert s == [mark] + rest && s[1..] == rest;
    } else {
      assert s[0] == first[0];
      SplitFirst(first[1..], mark, rest);
      assert s[1..] == first[1..] + [mark] + rest;
      assert first == [first[0]] + first[1..];
    }
  }

  lemma {:induction false} NoMarkNoSplit(s: string, mark: char)
    requires mark !in s
    ensures Split(s, mark) == [s]
  {
    if s != [] {
      NoMarkNoSplit(s[1..], mark);
      assert [s[0]] + s[1..] == s;
    }
  }

  lemma {:induction false} CountAppend(a: string, b: string, mark: char)
    ensures Count(a + b, mark) == Count(a, mark) + Count(b, mark)
  {
    if a == [] {
      assert a + b == b;
    } else {
      CountAppend(a[1..], b, mark);
      assert (a + b)[1..] == a[1..] + b;
    }
  }

  lemma {:induction false} CountPositive(s: string, mark: char)
    requires mark in s
    ensures Count(s, mark) > 0
  {
    if s[0] != mark {
      CountPositive(s[1..], mark);
    }
  }

  /** With a dot in the key id there are too many parts. */
  lemma DottedHasMore(keyId: string, text: string, signature: string)
    requires '.' in keyId
    ensures Count(keyId + ['.'] + (text + ['.'] + signature), '.') >= 3
  {
    var tail := text + ['.'] + signature;
    CountPositive(keyId, '.');
    CountAppend(keyId + ['.'], tail, '.');
    CountAppend(keyId, ['.'], '.');
    CountAppend(text + ['.'], signature, '.');
    CountAppend(text, ['.'], '.');
    assert Count(['.'], '.') == 1;
  }

  lemma SplitToken(keyId: string, text: string, signature: string)
    requires '.' !in text && '.' !in signature
    ensures var parts := Split(SigningInput(keyId, text) + "." + signature, '.');
      if '.' in keyId then |parts| > 4 else parts == [VERSION, keyId, text, signature]
  {
    var tail := text + ['.'] + signature;
    var rest := keyId + ['.'] + tail;
    assert SigningInput(keyId, text) + "." + signature == VERSION + ['.'] + rest;
    SplitFirst(VERSION, '.', rest);
    if '.' in keyId {
      DottedHasMore(keyId, text, signature);
    } else {
      SplitFirst(keyId, '.', tail);
      SplitFirst(text, '.', signature);
      NoMarkNoSplit(signature, '.');
    }
  }

  /** A key id without dots survives the trip and only it does: a dotted one makes every token malformed. */
  lemma OpenSigned(codec: Codec, keyId: string, key: string, payload: Payload, keys: map<string, string>)
    requires codec.ReadsBack() && keyId in keys && keys[keyId] == key
    ensures Open(codec, Sign(codec, keyId, key, payload), keys) ==
      if '.' in keyId then Failure(Malformed) else Success(Assertion(payload, keyId))
  {
    var data := codec.dumps(payload);
    var mac := codec.mac(key, SigningInput(keyId, B64(data)));
    Base64RoundTrip(data);
    Base64RoundTrip(mac);
    OnlyLetters(data);
    OnlyLetters(mac);
    SplitToken(keyId, B64(data), B64(mac));
  }

  ghost predicate InWindow(payload: Payload, now: int, skew: int) {
    payload.issuedAt - skew <= now <= payload.expiresAt + skew
  }

  /** `verify(sign(a))` gives back exactly `a` under these conditions, and nothing otherwise. */
  lemma SignedVerifies(codec: Codec, keyId: string, key: string, payload: Payload, keys: map<string, string>,
                       applicationId: Option<string>, hostname: Option<string>, now: int, skew: int)
    requires codec.ReadsBack() && keyId in keys && keys[keyId] == key
    ensures var verified := Verify(codec, Sign(codec, keyId, key, payload), keys, applicationId, hostname, now, skew);
      && (verified.Success? <==>
          && '.' !in keyId
          && InWindow(payload, now, skew)
          && (applicationId.Some? ==> payload.applicationId == applicationId.value)
          && (hostname.Some? ==> payload.hostname == hostname.value))
      && (verified.Success? ==> verified.value == Assertion(payload, keyId))
  {
    OpenSigned(codec, keyId, key, payload, keys);
  }

  /** Why a token the service signed itself is refused, the first reason that applies. */
  lemma SignedIsRefusedFor(codec: Codec, keyId: string, key: string, payload: Payload, keys: map<string, string>,
                           applicationId: Option<string>, hostname: Option<string>, now: int, skew: int)
    requires codec.ReadsBack()
    ensures var verified := Verify(codec, Sign(codec, keyId, key, payload), keys, applicationId, hostname, now, skew);
      verified.Failure? ==>
        && (verified.error == Malformed <==> '.' in keyId)
        && (verified.error == UnknownKey <==> '.' !in keyId && keyId !in keys)
        && (verified.error == NotYetValid ==> now < payload.issuedAt - skew)
        && (verified.error == Expired ==> payload.issuedAt - skew <= now && now > payload.expiresAt + skew)
        && (verified.error == WrongApplication ==>
              InWindow(payload, now, skew) && applicationId.Some? && applicationId.value != payload.applicationId)
        && (verified.error == WrongHostname ==>
              InWindow(payload, now, skew) && hostname.Some? && hostname.value != payload.hostname)
        && (verified.error == BadSignature ==> keyId in keys && keys[keyId] != key)
        && verified.error != Missing
  {
    if keyId in keys && keys[keyId] == key {
      OpenSigned(codec, keyId, key, payload, keys);
    } else {
      OpenUntrusted(codec, keyId, key, payload, keys);
    }
  }

  lemma OpenUntrusted(codec: Codec, keyId: string, key: string, payload: Payload, keys: map<string, string>)
    requires codec.ReadsBack()
    ensures var read := Open(codec, Sign(codec, keyId, key, payload), keys);
      && ('.' in keyId ==> read == Failure(Malformed))
      && ('.' !in keyId && keyId !in keys ==> read == Failure(UnknownKey))
      && ('.' !in keyId && keyId in keys ==>
            read == Success(Assertion(payload, keyId)) || (keys[keyId] != key && read == Failure(BadSignature)))
  {
    var data := codec.dumps(payload);
    var mac := codec.mac(key, SigningInput(keyId, B64(data)));
    Base64RoundTrip(data);
    Base64RoundTrip(mac);
    OnlyLetters(data);
    OnlyLetters(mac);
    SplitToken(keyId, B64(data), B64(mac));
  }

  /** The verification at the origin accepts the same tokens, whatever case and final dots its hostname has. */
  lemma SignedVerifiesAtOrigin(codec: Codec, keyId: string, key: string, payload: Payload, keys: map<string, string>,
                               applicationId: string, hostname: Option<string>, now: int, skew: int)
    requires codec.ReadsBack() && keyId in keys && keys[keyId] == key
    ensures var verified :=
        VerifyAtOrigin(codec, Sign(codec, keyId, key, payload), keys, applicationId, hostname, now, skew);
      && (verified.Success? <==>
          && '.' !in keyId
          && InWindow(payload, now, skew)
          && payload.applicationId == applicationId
          && (hostname.Some? ==> payload.hostname == StripRight(Lower(hostname.value), '.')))
      && (verified.Success? ==> verified.value == Assertion(payload, keyId))
  {
    OpenSigned(codec, keyId, key, payload, keys);
  }

  /** Whatever token is accepted carries a signature made with the key the caller trusts under its key id. */
  lemma AcceptedMeansSigned(codec: Codec, token: string, keys: map<string, string>, applicationId: Option<string>,
                            hostname: Option<string>, now: int, skew: int)
    requires Verify(codec, token, keys, applicationId, hostname, now, skew).Success?
    ensures var a := Verify(codec, token, keys, applicationId, hostname, now, skew).value;
      && a.keyId in keys
      && InWindow(a.payload, now, skew)
      && exists text: string, signature: string ::
           && token == SigningInput(a.keyId, text) + "." + signature
           && Unb64(signature) == Some(codec.mac(keys[a.keyId], SigningInput(a.keyId, text)))
           && Unb64(text).Some? && codec.loads(Unb64(text).value) == Some(a.payload)
  {
    var parts := Split(token, '.');
    SplitJoins(token, '.');
    assert token == SigningInput(parts[1], parts[2]) + "." + parts[3] by {
      assert Joined(parts, '.') == parts[0] + ['.'] + Joined(parts[1..], '.');
      assert Joined(parts[1..], '.') == parts[1] + ['.'] + Joined(parts[1..][1..], '.');
      assert parts[1..][1..] == [parts[2], parts[3]] && [parts[2], parts[3]][1..] == [parts[3]];
      assert Joined([parts[3]], '.') == parts[3];
    }
  }

  function Joined(parts: seq<string>, mark: char): string
    requires parts != []
  {
    if |parts| == 1 then parts[0] else parts[0] + [mark] + Joined(parts[1..], mark)
  }

  lemma {:induction false} SplitJoins(s: string, mark: char)
    ensures Joined(Split(s, mark), mark) == s
  {
    if s != [] {
      SplitJoins(s[1..], mark);
      var rest := Split(s[1..], mark);
      assert s == [s[0]] + s[1..];
      if s[0] != mark {
        assert Split(s, mark)[1..] == rest[1..];
      } else {
        assert Split(s, mark)[1..] == rest;
      }
    }
  }
}
