/**
 * JSON values as the edge configuration uses them. The words the configuration code itself writes
 * (keys, handler kinds, header names, fixed paths, placeholders) are numbered, so that two of them
 * differ by construction; `Lit` is any other text.
 */
module Json {
  import opened Wrappers

  datatype Text = Word(code: nat) | Lit(s: string)

  // keys and fixed values
  const ACME := Word(0)
  const AUTOMATION := Word(1)
  const AUTOMATIC_HTTPS := Word(2)
  const DELETE := Word(3)
  const DIAL := Word(4)
  const DISABLE := Word(5)
  const EDGE := Word(6)
  const EMAIL := Word(7)
  const ENDPOINT := Word(8)
  const HANDLE := Word(9)
  const HANDLER := Word(10)
  const HANDLE_RESPONSE := Word(11)
  const HEADERS := Word(12)
  const HOST := Word(13)
  const HTTP := Word(14)
  const HTTP_PORT := Word(15)
  const HTTPS_PORT := Word(16)
  const ID := Word(17)
  const INTERNAL := Word(18)
  const ISSUERS := Word(19)
  const KEY := Word(20)
  const LISTEN := Word(21)
  const MATCH := Word(22)
  const MAX_EVENTS := Word(23)
  const METHOD_KEY := Word(24)
  const METRICS := Word(25)
  const MODULE := Word(26)
  const ON_DEMAND := Word(27)
  const PATH := Word(28)
  const PER_HOST := Word(29)
  const PERMISSION := Word(30)
  const POLICIES := Word(31)
  const PROTOCOL := Word(32)
  const RANGES := Word(33)
  const RATE_LIMITS := Word(34)
  const RATE_LIMIT := Word(35)
  const REMOTE_IP := Word(36)
  const REQUEST := Word(37)
  const REVERSE_PROXY := Word(38)
  const REWRITE := Word(39)
  const ROUTES := Word(40)
  const SERVER_NAME := Word(41)
  const SERVERS := Word(42)
  const SET := Word(43)
  const STATIC_RESPONSE := Word(44)
  const STATUS_CODE := Word(45)
  const STRICT_SNI_HOST := Word(46)
  const TERMINAL := Word(47)
  const TLS := Word(48)
  const TLS_CONNECTION_POLICIES := Word(49)
  const TRANSPORT := Word(50)
  const UPSTREAMS := Word(51)
  const URI := Word(52)
  const WINDOW := Word(53)
  const GET := Word(54)
  const ONE_MINUTE := Word(55)
  const ONE_SECOND := Word(56)
  const ONE := Word(57)

  // route names
  const PORTAL_ROUTE := Word(58)
  const PORTAL_DENIED := Word(59)
  const OPERATOR_ROUTE := Word(60)
  const OPERATOR_DENIED := Word(61)
  const API_ROUTE := Word(62)
  const HEALTH_ROUTE := Word(63)
  const UNMATCHED_ROUTE := Word(64)

  // paths
  const HEALTH_PATH := Word(65)
  const ASSERT_PATH := Word(66)
  const PORTAL_PATH := Word(67)
  const PORTAL_TREE := Word(68)
  const OPERATOR_PATH := Word(69)
  const OPERATOR_TREE := Word(70)
  const API_PATH := Word(71)
  const API_TREE := Word(72)
  const CONNECT_TREE := Word(73)

  // header names
  const ASSERTION_HEADER := Word(74)
  const EDGE_HOST_HEADER := Word(75)
  const EDGE_SNI_HEADER := Word(76)
  const EDGE_REQUEST_ID_HEADER := Word(77)
  const EDGE_TOKEN_HEADER := Word(78)
  const REFERENCE_HEADER := Word(79)
  const APPLICATION_HEADER := Word(80)
  const EDGE_HEALTH_HEADER := Word(81)
  const HOST_HEADER := Word(82)
  const FORWARDED_HOST := Word(83)
  const FORWARDED_PROTO := Word(84)
  const FORWARDED_METHOD := Word(85)
  const FORWARDED_URI := Word(86)

  // Caddy's placeholders
  const REQUEST_HOST := Word(87)
  const REQUEST_SNI := Word(88)
  const REQUEST_UUID := Word(89)
  const REQUEST_METHOD := Word(90)
  const REQUEST_URI := Word(91)
  const REQUEST_SCHEME := Word(92)
  const ASSERTION_REPLY := Word(93)

  datatype Json =
    | Null
    | Bool(value: bool)
    | Num(number: int)
    | Str(text: Text)
    | Arr(items: seq<Json>)
    | Obj(fields: map<Text, Json>)

  /** `value.get(key)`: a key that is missing and one that is null read the same. */
  function Field(value: Json, key: Text): Option<Json> {
    if value.Obj? && key in value.fields && value.fields[key] != Null then Some(value.fields[key]) else None
  }

  predicate HasKeys(value: Json, keys: set<Text>) {
    value.Obj? && value.fields.Keys == keys
  }

  predicate HasOnly(value: Json, keys: set<Text>) {
    value.Obj? && value.fields.Keys <= keys
  }

  function Strings(texts: seq<string>): Json {
    Arr(seq(|texts|, i requires 0 <= i < |texts| => Str(Lit(texts[i]))))
  }

  function Words(texts: seq<Text>): Json {
    Arr(seq(|texts|, i requires 0 <= i < |texts| => Str(texts[i])))
  }

  /** The plain strings of a list, if it is a non-empty list of nothing else. */
  function StringsOf(value: Json): Option<seq<string>> {
    if value.Arr? && value.items != [] && (forall x | x in value.items :: x.Str? && x.text.Lit?)
    then Some(seq(|value.items|, i requires 0 <= i < |value.items| => value.items[i].text.s))
    else None
  }

  lemma StringsBack(texts: seq<string>)
    requires texts != []
    ensures StringsOf(Strings(texts)) == Some(texts)
  {
    var items := Strings(texts).items;
    assert forall i | 0 <= i < |texts| :: items[i] == Str(Lit(texts[i]));
    assert StringsOf(Strings(texts)).Some?;
    assert StringsOf(Strings(texts)).value == texts;
  }
}
