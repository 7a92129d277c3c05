/** Reading a credential out of an Authorization header. */
module Authorization {
  import opened Outcomes
  import opened Base64

  datatype Scheme = Basic | Bearer

  datatype Credential = Credential(scheme: Scheme, user: Bytes, password: Bytes, token: Bytes)

  datatype Status = Valid | Absent | UnsupportedScheme | Malformed

  datatype Parsed = Parsed(status: Status, credential: Option<Credential>)

  predicate IsBlank(c: Byte) {
    c == ' ' || c == '\t' || c == '\r' || c == '\n'
  }

  predicate Blank(s: Bytes) {
    forall i :: 0 <= i < |s| ==> IsBlank(s[i])
  }

  function TrimmedLeft(s: Bytes): Bytes
    decreases |s|
  {
    if s != [] && IsBlank(s[0]) then TrimmedLeft(s[1..]) else s
  }

  function TrimmedRight(s: Bytes): Bytes
    decreases |s|
  {
    if s != [] && IsBlank(s[|s| - 1]) then TrimmedRight(s[..|s| - 1]) else s
  }

  function Trim(s: Bytes): Bytes {
    TrimmedRight(TrimmedLeft(s))
  }

  function Lower(c: Byte): Byte {
    if 'A' <= c <= 'Z' then (c as int + 32) as char else c
  }

  predicate EqualsIgnoringCase(s: Bytes, t: Bytes) {
    |s| == |t| && forall i :: 0 <= i < |s| ==> Lower(s[i]) == Lower(t[i])
  }

  predicate IsSeparator(c: Byte) {
    c == ' ' || c == '\t'
  }

  /** The index of the first separator, or the length if there is none. */
  function FirstSeparator(s: Bytes): (n: nat)
    ensures n <= |s|
    ensures forall i :: 0 <= i < n ==> !IsSeparator(s[i])
    ensures n < |s| ==> IsSeparator(s[n])
    decreases |s|
  {
    if s == [] || IsSeparator(s[0]) then 0 else 1 + FirstSeparator(s[1..])
  }

  function FirstColon(s: Bytes): (n: nat)
    ensures n <= |s|
    ensures forall i :: 0 <= i < n ==> s[i] != ':'
    ensures n < |s| ==> s[n] == ':'
    decreases |s|
  {
    if s == [] || s[0] == ':' then 0 else 1 + FirstColon(s[1..])
  }

  function Rejected(status: Status): Parsed {
    Parsed(status, None)
  }

  /** User and password from a decoded payload, split on its first colon. */
  function Split(decoded: Bytes): Parsed {
    var colon := FirstColon(decoded);
    if colon == |decoded| || colon == 0 then Rejected(Malformed)
    else Parsed(Valid, Some(Credential(Basic, decoded[..colon], decoded[colon + 1..], [])))
  }

  const BEARER: Bytes := "Bearer"
  const BASIC: Bytes := "Basic"

  function Parse(header: Bytes): Parsed {
    var value := Trim(header);
    if value == [] then Rejected(Absent) else
    var separator := FirstSeparator(value);
    if separator == |value| then Rejected(Malformed) else
    var scheme, rest := value[..separator], Trim(value[separator + 1..]);
    if rest == [] then Rejected(Malformed)
    else if EqualsIgnoringCase(scheme, BEARER) then Parsed(Valid, Some(Credential(Bearer, [], [], rest)))
    else if EqualsIgnoringCase(scheme, BASIC) then
      var decoded := Decode(rest);
      if decoded.None? then Rejected(Malformed) else Split(decoded.value)
    else Rejected(UnsupportedScheme)
  }

  // ---------- Trimming ----------

  /** Nothing, or text that neither begins nor ends with a blank. */
  predicate IsTrimmed(s: Bytes) {
    s != [] ==> !IsBlank(s[0]) && !IsBlank(s[|s| - 1])
  }

  lemma {:induction false} LeftSplits(s: Bytes) returns (before: Bytes)
    ensures s == before + TrimmedLeft(s) && Blank(before)
    ensures TrimmedLeft(s) != [] ==> !IsBlank(TrimmedLeft(s)[0])
    decreases |s|
  {
    before := [];
    if s != [] && IsBlank(s[0]) {
      before := LeftSplits(s[1..]);
      before := [s[0]] + before;
    }
  }

  lemma {:induction false} RightSplits(s: Bytes) returns (after: Bytes)
    ensures s == TrimmedRight(s) + after && Blank(after)
    ensures TrimmedRight(s) != [] ==> !IsBlank(TrimmedRight(s)[|TrimmedRight(s)| - 1])
    decreases |s|
  {
    after := [];
    if s != [] && IsBlank(s[|s| - 1]) {
      after := RightSplits(s[..|s| - 1]);
      after := after + [s[|s| - 1]];
    }
  }

  lemma TrimSplits(s: Bytes) returns (before: Bytes, after: Bytes)
    ensures s == before + Trim(s) + after && Blank(before) && Blank(after) && IsTrimmed(Trim(s))
  {
    before := LeftSplits(s);
    after := RightSplits(TrimmedLeft(s));
    var t := Trim(s);
    if t != [] {
      assert TrimmedLeft(s)[0] == t[0];
    }
  }

  lemma {:induction false} LeftOf(before: Bytes, s: Bytes)
    requires Blank(before) && (s != [] ==> !IsBlank(s[0]))
    ensures TrimmedLeft(before + s) == s
    decreases |before|
  {
    if before == [] {
      assert before + s == s;
    } else {
      LeftOf(before[1..], s);
      assert (before + s)[1..] == before[1..] + s;
    }
  }

  lemma {:induction false} RightOf(s: Bytes, after: Bytes)
    requires Blank(after) && (s != [] ==> !IsBlank(s[|s| - 1]))
    ensures TrimmedRight(s + after) == s
    decreases |after|
  {
    if after == [] {
      assert s + after == s;
    } else {
      var n := |after| - 1;
      var whole := s + after;
      RightOf(s, after[..n]);
      assert whole[|whole| - 1] == after[n];
      assert whole[..|whole| - 1] == s + after[..n];
    }
  }

  lemma TrimOf(before: Bytes, s: Bytes, after: Bytes)
    requires Blank(before) && Blank(after) && IsTrimmed(s) && s != []
    ensures Trim(before + s + after) == s
  {
    assert before + s + after == before + (s + after);
    LeftOf(before, s + after);
    RightOf(s, after);
  }

  // ---------- The round trip ----------

  lemma {:induction false} SeparatorAt(s: Bytes, n: nat)
    requires n < |s| && IsSeparator(s[n]) && forall i :: 0 <= i < n ==> !IsSeparator(s[i])
    ensures FirstSeparator(s) == n
  {
    var m := FirstSeparator(s);
    assert m <= n;
  }

  lemma ColonAt(user: Bytes, password: Bytes)
    requires ':' !in user
    ensures FirstColon(user + [':'] + password) == |user|
  {
    var s := user + [':'] + password;
    assert s[|user|] == ':';
    assert forall i :: 0 <= i < |user| ==> s[i] == user[i] && user[i] in user;
  }

  lemma {:induction false} EncodingHasNoBlanks(data: Bytes)
    requires data != []
    ensures Encode(data) != [] && forall i :: 0 <= i < |Encode(data)| ==> !IsBlank(Encode(data)[i])
    decreases |data|
  {
    if |data| <= 3 {
      GroupHasNoBlanks(data);
    } else {
      GroupHasNoBlanks(data[..3]);
      EncodingHasNoBlanks(data[3..]);
    }
  }

  lemma GroupHasNoBlanks(g: Bytes)
    requires 1 <= |g| <= 3
    ensures forall i :: 0 <= i < 4 ==> !IsBlank(Group(g)[i])
  {
    forall n: Sextet
      ensures !IsBlank(Letter(n))
    {
    }
  }

  lemma SchemeHasNoBlanks(scheme: Bytes, name: Bytes)
    requires name in {BASIC, BEARER} && EqualsIgnoringCase(scheme, name)
    ensures scheme != [] && forall i :: 0 <= i < |scheme| ==> !IsBlank(scheme[i]) && !IsSeparator(scheme[i])
  {
    forall i | 0 <= i < |scheme|
      ensures !IsBlank(scheme[i]) && !IsSeparator(scheme[i])
    {
      assert Lower(scheme[i]) == Lower(name[i]);
    }
  }

  /** header is, up to blanks, the named scheme in any casing, a separator, and the payload. */
  ghost predicate Carries(header: Bytes, name: Bytes, payload: Bytes) {
    exists before, scheme, gap, after ::
      CarriesWith(header, name, payload, before, scheme, gap, after)
  }

  predicate CarriesWith(header: Bytes, name: Bytes, payload: Bytes,
                        before: Bytes, scheme: Bytes, gap: Bytes, after: Bytes)
  {
    && header == before + scheme + gap + payload + after
    && Blank(before) && Blank(gap) && Blank(after)
    && EqualsIgnoringCase(scheme, name)
    && gap != [] && IsSeparator(gap[0])
  }

  /** header is, up to blanks, a scheme without separators, a separator, and a payload. */
  ghost predicate Names(header: Bytes, scheme: Bytes, payload: Bytes) {
    exists before, gap, after :: NamesWith(header, scheme, payload, before, gap, after)
  }

  predicate NamesWith(header: Bytes, scheme: Bytes, payload: Bytes, before: Bytes, gap: Bytes, after: Bytes) {
    && header == before + scheme + gap + payload + after
    && Blank(before) && Blank(gap) && Blank(after)
    && scheme != [] && !IsBlank(scheme[0]) && (forall i :: 0 <= i < |scheme| ==> !IsSeparator(scheme[i]))
    && gap != [] && IsSeparator(gap[0])
    && payload != [] && IsTrimmed(payload)
  }

  /** A header has only one scheme and one payload. */
  lemma NamedParts(header: Bytes, scheme: Bytes, payload: Bytes, before: Bytes, gap: Bytes, after: Bytes)
    requires NamesWith(header, scheme, payload, before, gap, after)
    ensures var value := Trim(header);
            var n := FirstSeparator(value);
            value != [] && n < |value| && value[..n] == scheme && Trim(value[n + 1..]) == payload
  {
    var core := scheme + gap + payload;
    assert header == before + core + after;
    assert core[0] == scheme[0] && core[|core| - 1] == payload[|payload| - 1];
    TrimOf(before, core, after);
    var n := |scheme|;
    assert core[n] == gap[0] && forall i :: 0 <= i < n ==> core[i] == scheme[i];
    SeparatorAt(core, n);
    SchemeAndRest(scheme, gap, payload);
    TrimOf(gap[1..], payload, []);
  }

  /** What the header's scheme and payload come to, whichever scheme it names. */
  lemma PartsOfCarried(header: Bytes, name: Bytes, payload: Bytes,
                       before: Bytes, scheme: Bytes, gap: Bytes, after: Bytes)
    requires name in {BASIC, BEARER} && payload != [] && IsTrimmed(payload)
    requires CarriesWith(header, name, payload, before, scheme, gap, after)
    ensures var value := Trim(header);
            var n := FirstSeparator(value);
            value != [] && n < |value| && value[..n] == scheme && Trim(value[n + 1..]) == payload
  {
    SchemeHasNoBlanks(scheme, name);
    NamedParts(header, scheme, payload, before, gap, after);
  }

  lemma SchemeAndRest(scheme: Bytes, gap: Bytes, payload: Bytes)
    requires gap != []
    ensures (scheme + gap + payload)[..|scheme|] == scheme
    ensures (scheme + gap + payload)[|scheme| + 1..] == gap[1..] + payload + []
  {
    var core := scheme + gap + payload;
    assert core == scheme + (gap + payload);
    assert core[|scheme|..] == gap + payload;
  }

  lemma SplitOfJoined(user: Bytes, password: Bytes)
    requires user != [] && ':' !in user
    ensures Split(user + [':'] + password) == Parsed(Valid, Some(Credential(Basic, user, password, [])))
  {
    hide FirstColon;
    ColonAt(user, password);
    SlicesOfJoined(user, ':', password);
  }

  lemma SlicesOfJoined(left: Bytes, c: Byte, right: Bytes)
    ensures (left + [c] + right)[..|left|] == left && (left + [c] + right)[|left| + 1..] == right
  {
  }

  lemma SplitJoins(data: Bytes)
    requires Split(data).status == Valid
    ensures var c := Split(data).credential.value;
            c.user != [] && ':' !in c.user && data == c.user + [':'] + c.password
  {
  }

  lemma BasicReadsBack(header: Bytes, user: Bytes, password: Bytes)
    requires user != [] && ':' !in user
    requires Carries(header, BASIC, Encode(user + [':'] + password))
    ensures Parse(header) == Parsed(Valid, Some(Credential(Basic, user, password, [])))
  {
    hide Decode, Encode, Trim, Split;
    var data := user + [':'] + password;
    var payload := Encode(data);
    var before, scheme, gap, after :| CarriesWith(header, BASIC, payload, before, scheme, gap, after);
    EncodingHasNoBlanks(data);
    PartsOfCarried(header, BASIC, payload, before, scheme, gap, after);
    DecodeInvertsEncode(payload, data);
    SplitOfJoined(user, password);
    assert |scheme| == |BASIC| == 5 && |BEARER| == 6;
  }

  lemma Reassociated(before: Bytes, scheme: Bytes, c: Byte, gap: Bytes, rest: Bytes, after': Bytes, after: Bytes)
    ensures before + (scheme + [c] + (gap + rest + after')) + after
            == before + scheme + ([c] + gap) + rest + (after' + after)
  {
  }

  /** Any header with a scheme and a payload is those two, up to blanks. */
  lemma HeaderSplits(header: Bytes) returns (before: Bytes, gap: Bytes, after: Bytes)
    requires FirstSeparator(Trim(header)) < |Trim(header)|
    ensures var n := FirstSeparator(Trim(header));
            header == before + Trim(header)[..n] + gap + Trim(Trim(header)[n + 1..]) + after
    ensures Blank(before) && Blank(gap) && Blank(after) && gap != [] && IsSeparator(gap[0])
    ensures IsTrimmed(Trim(Trim(header)[FirstSeparator(Trim(header)) + 1..]))
  {
    hide Trim, IsTrimmed;
    var value := Trim(header);
    var n := FirstSeparator(value);
    var before0, after0 := TrimSplits(header);
    var gap0, after1 := TrimSplits(value[n + 1..]);
    assert value == value[..n] + [value[n]] + value[n + 1..];
    Reassociated(before0, value[..n], value[n], gap0, Trim(value[n + 1..]), after1, after0);
    before, gap, after := before0, [value[n]] + gap0, after1 + after0;
  }

  lemma BasicWasCarried(header: Bytes)
    requires Parse(header).status == Valid && Parse(header).credential.value.scheme == Basic
    ensures var c := Parse(header).credential.value;
            && c.user != [] && ':' !in c.user && c.token == []
            && Carries(header, BASIC, Encode(c.user + [':'] + c.password))
  {
    hide Decode, Encode, Trim, Split;
    var value := Trim(header);
    var n := FirstSeparator(value);
    var rest := Trim(value[n + 1..]);
    var before, gap, after := HeaderSplits(header);
    var data := Decode(rest).value;
    SplitIsBasic(data);
    DecodeInvertsEncode(rest, data);
    SplitJoins(data);
    assert CarriesWith(header, BASIC, Encode(data), before, value[..n], gap, after);
  }

  lemma SplitIsBasic(data: Bytes)
    ensures Split(data).status == Valid ==>
              Split(data).credential.Some? && Split(data).credential.value.scheme == Basic
              && Split(data).credential.value.token == []
  {
  }

  /**
   A header parses to a user and a password exactly when it is, up to blanks, any casing of
   "Basic", a separator, and the base64 of user:password, the user non-empty and without a
   colon.  So every such credential comes back as it was sent, and nothing else is one.
   */
  lemma BasicRoundTrip(header: Bytes, user: Bytes, password: Bytes)
    ensures Parse(header) == Parsed(Valid, Some(Credential(Basic, user, password, [])))
            <==> user != [] && ':' !in user && Carries(header, BASIC, Encode(user + [':'] + password))
  {
    hide Parse, Carries, Encode;
    if user != [] && ':' !in user && Carries(header, BASIC, Encode(user + [':'] + password)) {
      BasicReadsBack(header, user, password);
    }
    if Parse(header) == Parsed(Valid, Some(Credential(Basic, user, password, []))) {
      BasicWasCarried(header);
    }
  }

  lemma BearerReadsBack(header: Bytes, token: Bytes)
    requires token != [] && IsTrimmed(token) && Carries(header, BEARER, token)
    ensures Parse(header) == Parsed(Valid, Some(Credential(Bearer, [], [], token)))
  {
    hide Decode, Trim, Split;
    var before, scheme, gap, after :| CarriesWith(header, BEARER, token, before, scheme, gap, after);
    PartsOfCarried(header, BEARER, token, before, scheme, gap, after);
  }

  lemma BearerWasCarried(header: Bytes)
    requires Parse(header).status == Valid && Parse(header).credential.value.scheme == Bearer
    ensures var c := Parse(header).credential.value;
            && c == Credential(Bearer, [], [], c.token)
            && c.token != [] && IsTrimmed(c.token) && Carries(header, BEARER, c.token)
  {
    hide Decode, Trim;
    var value := Trim(header);
    var n := FirstSeparator(value);
    var rest := Trim(value[n + 1..]);
    var before, gap, after := HeaderSplits(header);
    SplitIsBasic(if Decode(rest).Some? then Decode(rest).value else []);
    hide Split;
    assert CarriesWith(header, BEARER, rest, before, value[..n], gap, after);
  }

  /** A header parses to a token exactly when it carries that token, trimmed and not empty. */
  lemma BearerRoundTrip(header: Bytes, token: Bytes)
    ensures Parse(header) == Parsed(Valid, Some(Credential(Bearer, [], [], token)))
            <==> token != [] && IsTrimmed(token) && Carries(header, BEARER, token)
  {
    hide Parse, Carries, IsTrimmed;
    if token != [] && IsTrimmed(token) && Carries(header, BEARER, token) {
      BearerReadsBack(header, token);
    }
    if Parse(header) == Parsed(Valid, Some(Credential(Bearer, [], [], token))) {
      BearerWasCarried(header);
    }
  }

  /** A credential comes with the status Valid and with no other, and Absent means nothing but blanks. */
  lemma StatusTellsCredential(header: Bytes)
    ensures Parse(header).status == Valid <==> Parse(header).credential.Some?
    ensures Parse(header).status == Absent <==> Blank(header)
  {
    var before, after := TrimSplits(header);
    var value := Trim(header);
    if value != [] {
      assert header[|before|] == value[0];
    }
  }

  lemma NotAllBlank(s: Bytes, i: nat, before: Bytes, middle: Bytes, after: Bytes)
    requires i < |s| && !IsBlank(s[i]) && s == before + middle + after && Blank(before) && Blank(after)
    ensures middle != []
  {
    assert middle == [] ==> s == before + after;
  }

  lemma SeparatedIsNamed(header: Bytes)
    requires FirstSeparator(Trim(header)) < |Trim(header)|
    ensures var n := FirstSeparator(Trim(header));
            Names(header, Trim(header)[..n], Trim(Trim(header)[n + 1..]))
  {
    hide Trim;
    var value := Trim(header);
    var n := FirstSeparator(value);
    var before, gap, after := HeaderSplits(header);
    var before0, after0 := TrimSplits(header);
    var before1, after1 := TrimSplits(value[n + 1..]);
    var rest := Trim(value[n + 1..]);
    var last := value[|value| - 1];
    assert !IsBlank(last) && n < |value| - 1;
    assert value[n + 1..][|value| - n - 2] == last;
    NotAllBlank(value[n + 1..], |value| - n - 2, before1, rest, after1);
    assert NamesWith(header, value[..n], rest, before, gap, after);
  }

  /** The payload is the base64 of a user, a colon and a password. */
  ghost predicate EncodesUser(payload: Bytes) {
    exists user: Bytes, password: Bytes :: user != [] && ':' !in user && payload == Encode(user + [':'] + password)
  }

  lemma SplitSucceedsExactly(payload: Bytes)
    ensures Decode(payload).Some? && Split(Decode(payload).value).status == Valid <==> EncodesUser(payload)
  {
    hide Decode, Encode, Split;
    if Decode(payload).Some? && Split(Decode(payload).value).status == Valid {
      var data := Decode(payload).value;
      SplitIsBasic(data);
      SplitJoins(data);
      DecodeInvertsEncode(payload, data);
      var c := Split(data).credential.value;
      assert payload == Encode(c.user + [':'] + c.password);
    }
    if EncodesUser(payload) {
      var user: Bytes, password: Bytes :|
        user != [] && ':' !in user && payload == Encode(user + [':'] + password);
      var data := user + [':'] + password;
      assert |data| == |user| + 1 + |password|;
      DecodeInvertsEncode(payload, data);
      SplitOfJoined(user, password);
    }
  }

  /** A header that names a scheme and a payload is judged by those two. */
  lemma StatusOfNamed(header: Bytes, scheme: Bytes, payload: Bytes)
    requires Names(header, scheme, payload)
    ensures var basic, bearer := EqualsIgnoringCase(scheme, BASIC), EqualsIgnoringCase(scheme, BEARER);
            && (Parse(header).status == UnsupportedScheme <==> !basic && !bearer)
            && (Parse(header).status == Malformed <==> basic && !EncodesUser(payload))
  {
    hide Decode, Encode, Trim, EqualsIgnoringCase, EncodesUser;
    var before, gap, after :| NamesWith(header, scheme, payload, before, gap, after);
    NamedParts(header, scheme, payload, before, gap, after);
    SplitSucceedsExactly(payload);
    SplitStatus(if Decode(payload).Some? then Decode(payload).value else []);
    assert EqualsIgnoringCase(scheme, BASIC) ==> !EqualsIgnoringCase(scheme, BEARER) by {
      OneSchemeOnly(scheme);
    }
    hide Split;
  }

  lemma SplitStatus(data: Bytes)
    ensures Split(data).status in {Valid, Malformed}
  {
  }

  lemma OneSchemeOnly(scheme: Bytes)
    ensures EqualsIgnoringCase(scheme, BASIC) ==> !EqualsIgnoringCase(scheme, BEARER)
  {
    assert |BASIC| == 5 && |BEARER| == 6;
  }

  /** And one that names none is malformed, unless it is blank. */
  lemma StatusOfUnnamed(header: Bytes)
    requires forall scheme, payload :: !Names(header, scheme, payload)
    ensures Parse(header).status == if Blank(header) then Absent else Malformed
  {
    StatusTellsCredential(header);
    if FirstSeparator(Trim(header)) < |Trim(header)| {
      SeparatedIsNamed(header);
    }
    hide Trim;
  }

  /** Capitals lose their case and nothing else changes; four characters are blank. */
  lemma CharactersAre(c: Byte)
    ensures Lower('A') == 'a' && Lower('M') == 'm' && Lower('Z') == 'z'
    ensures 'A' <= c <= 'Z' ==> Lower(c) as int - 'a' as int == c as int - 'A' as int
    ensures !('A' <= c <= 'Z') ==> Lower(c) == c
    ensures IsBlank(c) <==> c in " \t\r\n"
  {
  }

  // ---------- The parser itself ----------

  method ParseAuthorizationHeader(header: Bytes) returns (parsed: Parsed)
    ensures parsed == Parse(header)
  {
    var value := Trim(header);
    if value == [] {
      return Rejected(Absent);
    }
    var separator := FirstSeparator(value);
    if separator == |value| {
      return Rejected(Malformed);
    }
    var scheme := value[..separator];
    var rest := Trim(value[separator + 1..]);
    if rest == [] {
      return Rejected(Malformed);
    }
    if EqualsIgnoringCase(scheme, BEARER) {
      return Parsed(Valid, Some(Credential(Bearer, [], [], rest)));
    }
    if EqualsIgnoringCase(scheme, BASIC) {
      var decoded := DecodeBase64(rest);
      if decoded.None? {
        return Rejected(Malformed);
      }
      var colon := FirstColon(decoded.value);
      if colon == |decoded.value| {
        return Rejected(Malformed);
      }
      var user, password := decoded.value[..colon], decoded.value[colon + 1..];
      if user == [] {
        return Rejected(Malformed);
      }
      return Parsed(Valid, Some(Credential(Basic, user, password, [])));
    }
    return Rejected(UnsupportedScheme);
  }
}
