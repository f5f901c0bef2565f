/** Session normalization and the Redis key names that gateway and agent must agree on. */
module Naming {
  import opened Prelude

  // ---- Strings ----

  /** The characters Python's `str.strip` removes. */
  predicate IsSpace(c: char) {
    var n := c as int;
    || 0x09 <= n <= 0x0D || 0x1C <= n <= 0x20 || n == 0x85 || n == 0xA0 || n == 0x1680
    || 0x2000 <= n <= 0x200A || n == 0x2028 || n == 0x2029 || n == 0x202F || n == 0x205F || n == 0x3000
  }

  function StripLeft(s: string): (r: string)
    ensures |r| <= |s|
    ensures r == s[|s| - |r|..]
    ensures r != "" ==> !IsSpace(r[0])
  {
    if s == "" then ""
    else if IsSpace(s[0]) then StripLeft(s[1..])
    else s
  }

  function StripRight(s: string): (r: string)
    ensures |r| <= |s|
    ensures r == s[..|r|]
    ensures r != "" ==> !IsSpace(Last(r))
  {
    if s == "" then ""
    else if IsSpace(Last(s)) then StripRight(s[..|s| - 1])
    else s
  }

  function Strip(s: string): string {
    StripRight(StripLeft(s))
  }

  /** A string with no white space at either end. */
  predicate Trimmed(s: string) {
    s != "" ==> !IsSpace(s[0]) && !IsSpace(Last(s))
  }

  lemma StripTrims(s: string)
    ensures Trimmed(Strip(s))
    ensures Trimmed(s) ==> Strip(s) == s
    ensures Strip(Strip(s)) == Strip(s)
  {
    var l := StripLeft(s);
    var r := StripRight(l);
    assert r != "" ==> r[0] == l[0];
    StripOfTrimmed(r);
    if Trimmed(s) {
      StripOfTrimmed(s);
    }
  }

  lemma StripOfTrimmed(s: string)
    requires Trimmed(s)
    ensures Strip(s) == s
  {
  }

  predicate AllSpace(s: string) {
    forall i :: 0 <= i < |s| ==> IsSpace(s[i])
  }

  lemma {:induction false} LeftTakesSpace(s: string)
    ensures AllSpace(s[..|s| - |StripLeft(s)|])
    decreases |s|
  {
    if s == "" || !IsSpace(s[0]) {
    } else {
      LeftTakesSpace(s[1..]);
      var n := |s| - |StripLeft(s)|;
      assert s[..n] == [s[0]] + s[1..][..n - 1];
    }
  }

  lemma {:induction false} RightTakesSpace(s: string)
    ensures AllSpace(s[|StripRight(s)|..])
    decreases |s|
  {
    if s == "" || !IsSpace(Last(s)) {
    } else {
      RightTakesSpace(s[..|s| - 1]);
      var n := |StripRight(s)|;
      assert s[n..] == s[..|s| - 1][n..] + [Last(s)];
    }
  }

  /** `r` is `s` without some white space at either end. */
  predicate WithoutSpace(s: string, i: nat, j: nat, r: string) {
    i <= j <= |s| && r == s[i..j] && AllSpace(s[..i]) && AllSpace(s[j..])
  }

  /** White space goes at both ends, and nothing else does. */
  lemma StripTakesOnlySpace(s: string) returns (i: nat, j: nat)
    ensures Trimmed(Strip(s)) && WithoutSpace(s, i, j, Strip(s))
  {
    StripTrims(s);
    LeftTakesSpace(s);
    RightTakesSpace(StripLeft(s));
    i, j := StripBounds(s, StripLeft(s), Strip(s));
  }

  lemma StripBounds(s: string, l: string, r: string) returns (i: nat, j: nat)
    requires |l| <= |s| && l == s[|s| - |l|..] && AllSpace(s[..|s| - |l|])
    requires |r| <= |l| && r == l[..|r|] && AllSpace(l[|r|..])
    ensures WithoutSpace(s, i, j, r)
  {
    i, j := |s| - |l|, |s| - |l| + |r|;
    assert s[j..] == l[|r|..];
  }

  lemma AsciiSpaces(c: char)
    requires c as int < 128
    ensures IsSpace(c) <==> c as int in {9, 10, 11, 12, 13, 28, 29, 30, 31, 32}
  {
  }

  predicate NoColon(s: string) {
    ':' !in s
  }

  /** Python's `s.replace(a, b)` for one-character strings. */
  function Replace(s: string, a: char, b: char): (r: string)
    ensures |r| == |s|
    ensures forall i :: 0 <= i < |s| ==> r[i] == if s[i] == a then b else s[i]
  {
    if s == "" then "" else [if s[0] == a then b else s[0]] + Replace(s[1..], a, b)
  }

  // ---- Session ids ----

  const DEFAULT_SESSION: string := "api:direct"

  function Qualify(s: string): string {
    if ':' in s then s else "api:" + s
  }

  /** `_normalize_session`, the same in the gateway's and in the agent's chat route. */
  function NormalizeSession(raw: Option<string>): string {
    var stripped := if Truthy(raw) then Strip(raw.value) else "";
    Qualify(if stripped == "" then DEFAULT_SESSION else stripped)
  }

  /** What the agent's approve route compares with the recorded session; None skips the comparison. */
  function ApproverSession(raw: Option<string>): Option<string> {
    if raw.Some? && Strip(raw.value) != "" then Some(Qualify(Strip(raw.value))) else None
  }

  predicate Blank(raw: Option<string>) {
    raw.None? || Strip(raw.value) == ""
  }

  /** Qualifying a stripped name keeps it stripped, and makes it a fixed point. */
  lemma QualifyKeeps(s: string)
    requires Trimmed(s) && s != ""
    ensures Trimmed(Qualify(s)) && ':' in Qualify(s) && Qualify(Qualify(s)) == Qualify(s)
  {
    var q := Qualify(s);
    if ':' !in s {
      assert q[0] == 'a' && q[3] == ':' && Last(q) == Last(s);
    }
  }

  lemma NormalizedShape(raw: Option<string>)
    ensures var n := NormalizeSession(raw); Trimmed(n) && ':' in n && Qualify(n) == n
    ensures Blank(raw) ==> NormalizeSession(raw) == DEFAULT_SESSION
    ensures !Blank(raw) ==> NormalizeSession(raw) == Qualify(Strip(raw.value))
  {
    if Blank(raw) {
      assert DEFAULT_SESSION[3] == ':';
    } else {
      StripTrims(raw.value);
      QualifyKeeps(Strip(raw.value));
    }
  }

  lemma QualifiedIsFixed(n: string)
    requires Trimmed(n) && ':' in n
    ensures NormalizeSession(Some(n)) == n
    ensures ApproverSession(Some(n)) == Some(n)
  {
    StripTrims(n);
  }

  /** The name of a session: what the client typed, trimmed; after "api:" if it has no colon; "api:direct" if it is
      blank. */
  lemma SessionNames(raw: Option<string>)
    ensures raw.None? || Strip(raw.value) == "" ==> NormalizeSession(raw) == "api:direct"
    ensures raw.Some? && ':' in Strip(raw.value) ==> NormalizeSession(raw) == Strip(raw.value)
    ensures raw.Some? && Strip(raw.value) != "" && ':' !in Strip(raw.value) ==>
              |NormalizeSession(raw)| > 4 && NormalizeSession(raw)[..4] == "api:"
              && NormalizeSession(raw)[4..] == Strip(raw.value)
  {
    NormalizedShape(raw);
  }

  /** Whatever a client typed, the result is a non-blank fixed point of normalization: a second pass by
      the agent, or a pass by the approver, names the same session. */
  lemma SessionNamesAgree(raw: Option<string>)
    ensures NormalizeSession(Some(NormalizeSession(raw))) == NormalizeSession(raw)
    ensures ApproverSession(Some(NormalizeSession(raw))) == Some(NormalizeSession(raw))
    ensures ApproverSession(raw) == if Blank(raw) then None else Some(NormalizeSession(raw))
    ensures Blank(raw) ==> NormalizeSession(raw) == DEFAULT_SESSION
  {
    NormalizedShape(raw);
    QualifiedIsFixed(NormalizeSession(raw));
  }

  // ---- Redis keys ----

  const GLOBAL_STREAM := "nanogate:outbound:all"
  const SESSION_PREFIX := "nanogate:session:"
  const TENANT_PREFIX := "nanogate:tenant:"

  function InboundKey(tenant: string): string {
    TENANT_PREFIX + tenant + ":inbound"
  }

  function SessionStreamKey(session: string): string {
    SESSION_PREFIX + session + ":outbound"
  }

  function SafeKey(session: string): string {
    Replace(if session == "" then "default" else session, ':', '_')
  }

  function StateKey(tenant: string, session: string): string {
    TENANT_PREFIX + tenant + ":session_state:" + SafeKey(session)
  }

  /** The keys as they stand in Redis. */
  lemma KeysExactly(t: string, s: string)
    ensures InboundKey(t) == "nanogate:tenant:" + t + ":inbound"
    ensures SessionStreamKey(s) == "nanogate:session:" + s + ":outbound"
    ensures GLOBAL_STREAM == "nanogate:outbound:all"
    ensures StateKey(t, s) ==
            "nanogate:tenant:" + t + ":session_state:" + Replace(if s == "" then "default" else s, ':', '_')
  {
  }

  lemma Sandwich(pre: string, a: string, b: string, post: string)
    requires pre + a + post == pre + b + post
    ensures a == b
  {
    assert |a| == |b|;
    assert a == (pre + a + post)[|pre|..|pre| + |a|];
    assert b == (pre + b + post)[|pre|..|pre| + |a|];
  }

  lemma ColonBefore(s: string, p: string, q: string, i: nat)
    requires NoColon(q) && s == p + ":" + q
    requires i < |s| && s[i] == ':'
    ensures i <= |p|
  {
    assert forall j :: |p| < j < |s| ==> s[j] == q[j - |p| - 1];
  }

  /** A string splits in one way at its last colon. */
  lemma LastColon(p: string, q: string, p': string, q': string)
    requires NoColon(q) && NoColon(q')
    requires p + ":" + q == p' + ":" + q'
    ensures p == p' && q == q'
  {
    var s := p + ":" + q;
    ColonBefore(s, p, q, |p'|);
    ColonBefore(s, p', q', |p|);
    assert s[..|p|] == p && s[..|p|] == p';
    assert s[|p| + 1..] == q && s[|p| + 1..] == q';
  }

  /** No two tenants share a queue and no two sessions share a stream, whatever characters they use. */
  lemma QueuesAndStreamsInjective(a: string, b: string)
    ensures InboundKey(a) == InboundKey(b) <==> a == b
    ensures SessionStreamKey(a) == SessionStreamKey(b) <==> a == b
    ensures SessionStreamKey(a) != GLOBAL_STREAM
  {
    if InboundKey(a) == InboundKey(b) {
      Sandwich(TENANT_PREFIX, a, b, ":inbound");
    }
    if SessionStreamKey(a) == SessionStreamKey(b) {
      Sandwich(SESSION_PREFIX, a, b, ":outbound");
    }
    assert SessionStreamKey(a)[9] == 's' && GLOBAL_STREAM[9] == 'o';
  }

  lemma SafeKeyHasNoColon(session: string)
    ensures NoColon(SafeKey(session))
  {
    var r := SafeKey(session);
    assert forall i :: 0 <= i < |r| ==> r[i] != ':';
  }

  lemma TenantKeyParts(t: string, mid: string, q: string, t': string, mid': string, q': string)
    requires NoColon(q) && NoColon(q')
    ensures TENANT_PREFIX + t + mid + ":" + q == TENANT_PREFIX + t' + mid' + ":" + q' <==>
            t + mid == t' + mid' && q == q'
  {
    var p, p' := TENANT_PREFIX + t + mid, TENANT_PREFIX + t' + mid';
    assert p == TENANT_PREFIX + (t + mid) && p' == TENANT_PREFIX + (t' + mid');
    if p + ":" + q == p' + ":" + q' {
      LastColon(p, q, p', q');
      Sandwich(TENANT_PREFIX, t + mid, t' + mid', "");
    }
  }

  predicate IsSeparator(c: char) {
    c == ':' || c == '_'
  }

  /** Equal but for colons where the other has underscores. */
  predicate SameButColons(s: string, s': string) {
    |s| == |s'| && forall i :: 0 <= i < |s| ==> s[i] == s'[i] || (IsSeparator(s[i]) && IsSeparator(s'[i]))
  }

  lemma SafeKeysAgree(s: string, s': string)
    requires s != "" && s' != ""
    ensures SafeKey(s) == SafeKey(s') <==> SameButColons(s, s')
  {
    var r, r' := SafeKey(s), SafeKey(s');
    if r == r' {
      assert forall i :: 0 <= i < |s| ==> r[i] == r'[i];
    }
  }

  /** Saved states collide exactly when the tenants are the same and the sessions differ at most in colons where the
      other has underscores; an empty session counts as "default". */
  lemma StateKeysInjective(t: string, s: string, t': string, s': string)
    ensures StateKey(t, s) == StateKey(t', s') <==> t == t' && SafeKey(s) == SafeKey(s')
    ensures StateKey(t, s) == StateKey(t', s') <==>
            t == t' && SameButColons(if s == "" then "default" else s, if s' == "" then "default" else s')
  {
    SafeKeyHasNoColon(s);
    SafeKeyHasNoColon(s');
    StateKeyParts(t, SafeKey(s), t', SafeKey(s'));
    SafeKeysAgree(if s == "" then "default" else s, if s' == "" then "default" else s');
  }

  lemma StateKeyParts(t: string, q: string, t': string, q': string)
    requires NoColon(q) && NoColon(q')
    ensures TENANT_PREFIX + t + ":session_state:" + q == TENANT_PREFIX + t' + ":session_state:" + q' <==>
            t == t' && q == q'
  {
    var mid := ":session_state";
    assert TENANT_PREFIX + t + ":session_state:" + q == TENANT_PREFIX + t + mid + ":" + q;
    assert TENANT_PREFIX + t' + ":session_state:" + q' == TENANT_PREFIX + t' + mid + ":" + q';
    TenantKeyParts(t, mid, q, t', mid, q');
    if t + mid == t' + mid {
      assert "" + t + mid == t + mid && "" + t' + mid == t' + mid;
      Sandwich("", t, t', mid);
    }
  }

  /** A queue and a saved state share a key in exactly one odd case, which a colon-free tenant excludes. */
  lemma QueueVersusState(t: string, t': string, s: string)
    ensures InboundKey(t) == StateKey(t', s) <==> t == t' + ":session_state" && SafeKey(s) == "inbound"
    ensures NoColon(t) ==> InboundKey(t) != StateKey(t', s)
  {
    SafeKeyHasNoColon(s);
    QueueVersusStateParts(t, t', SafeKey(s));
    assert (t' + ":session_state")[|t'|] == ':';
  }

  lemma QueueVersusStateParts(t: string, t': string, q: string)
    requires NoColon(q)
    ensures InboundKey(t) == TENANT_PREFIX + t' + ":session_state:" + q <==>
            t == t' + ":session_state" && q == "inbound"
  {
    var mid, post := ":session_state", "inbound";
    assert InboundKey(t) == TENANT_PREFIX + t + "" + ":" + post;
    assert TENANT_PREFIX + t' + ":session_state:" + q == TENANT_PREFIX + t' + mid + ":" + q;
    TenantKeyParts(t, "", post, t', mid, q);
    assert t + "" == t;
  }

  /** A session stream shares its key with no queue and no saved state. */
  lemma StreamsVersusTenantKeys(s: string, t: string, s': string)
    ensures SessionStreamKey(s) != InboundKey(t) && SessionStreamKey(s) != StateKey(t, s')
  {
    assert SessionStreamKey(s)[9] == 's' && InboundKey(t)[9] == 't' && StateKey(t, s')[9] == 't';
  }

  /** The only colon of the name is the one after "api". */
  predicate OneColon(n: string) {
    |n| > 4 && n[3] == ':' && forall i :: 0 <= i < |n| && i != 3 ==> n[i] != ':'
  }

  lemma OneColonNamesSeparate(n: string, n': string)
    requires OneColon(n) && OneColon(n') && SafeKey(n) == SafeKey(n')
    ensures n == n'
  {
    forall i | 0 <= i < |n|
      ensures n[i] == n'[i]
    {
      assert SafeKey(n)[i] == SafeKey(n')[i];
    }
  }

  /** Two colon-free client ids name the same session exactly if they are equal once trimmed, a blank one counting as
      "direct"; and sessions share a name, a stream or a saved state together or not at all. */
  lemma ColonFreeSessionsSeparate(t: string, a: string, b: string)
    requires NoColon(a) && NoColon(b)
    ensures var n, n' := NormalizeSession(Some(a)), NormalizeSession(Some(b));
            var c, c' := if Strip(a) == "" then "direct" else Strip(a), if Strip(b) == "" then "direct" else Strip(b);
            && (n == n' <==> c == c')
            && (SessionStreamKey(n) == SessionStreamKey(n') <==> c == c')
            && (StateKey(t, n) == StateKey(t, n') <==> c == c')
  {
    var n, n' := NormalizeSession(Some(a)), NormalizeSession(Some(b));
    ColonFreeShape(a, n);
    ColonFreeShape(b, n');
    var api, direct := "api:", "direct";
    ColonFreeName(a, Strip(a), api, direct, n);
    ColonFreeName(b, Strip(b), api, direct, n');
    SamePrefix(api, if Strip(a) == "" then direct else Strip(a), if Strip(b) == "" then direct else Strip(b));
    OneColonKeysSeparate(t, n, n');
  }

  lemma ColonFreeName(a: string, c: string, api: string, direct: string, n: string)
    requires NoColon(a) && c == Strip(a) && api == "api:" && direct == "direct" && n == NormalizeSession(Some(a))
    ensures n == api + if c == "" then direct else c
  {
    NormalizedShape(Some(a));
    StripKeepsCharacters(a, ':');
    if c == "" {
      assert DEFAULT_SESSION == api + direct;
    }
  }

  lemma SamePrefix(pre: string, a: string, b: string)
    ensures pre + a == pre + b <==> a == b
  {
    if pre + a == pre + b {
      assert a == (pre + a)[|pre|..] && b == (pre + b)[|pre|..];
    }
  }

  lemma OneColonKeysSeparate(t: string, n: string, n': string)
    requires OneColon(n) && OneColon(n')
    ensures SessionStreamKey(n) == SessionStreamKey(n') <==> n == n'
    ensures StateKey(t, n) == StateKey(t, n') <==> n == n'
  {
    StateKeysInjective(t, n, t, n');
    QueuesAndStreamsInjective(n, n');
    if SafeKey(n) == SafeKey(n') {
      OneColonNamesSeparate(n, n');
    }
  }

  lemma StripKeepsCharacters(s: string, c: char)
    ensures c !in s ==> c !in Strip(s)
  {
    var l := StripLeft(s);
    var r := StripRight(l);
    assert forall i :: 0 <= i < |r| ==> r[i] == l[i] == s[|s| - |l| + i];
  }

  lemma QualifyColonFree(r: string)
    requires NoColon(r) && r != ""
    ensures OneColon(Qualify(r))
  {
    assert Qualify(r) == "api:" + r;
  }

  lemma DefaultHasOneColon(n: string)
    requires n == DEFAULT_SESSION
    ensures OneColon(n)
  {
  }

  lemma ColonFreeShape(a: string, n: string)
    requires NoColon(a) && n == NormalizeSession(Some(a))
    ensures OneColon(n)
  {
    NormalizedShape(Some(a));
    if Blank(Some(a)) {
      DefaultHasOneColon(n);
    } else {
      StripKeepsCharacters(a, ':');
      QualifyColonFree(Strip(a));
    }
  }

  lemma UnderscoreForColon(s: string, i: nat)
    requires Trimmed(s) && 0 < i < |s| - 1 && s[i] == ':'
    ensures Trimmed(s[i := '_']) && s != s[i := '_'] && SafeKey(s) == SafeKey(s[i := '_'])
  {
    var s' := s[i := '_'];
    assert s'[0] == s[0] && Last(s') == Last(s) && s[i] != s'[i];
    ReplaceIgnores(s, i, ':', '_');
  }

  lemma ReplaceIgnores(s: string, i: nat, a: char, b: char)
    requires i < |s| && s[i] == a && a != b
    ensures Replace(s, a, b) == Replace(s[i := b], a, b)
  {
    var r, r' := Replace(s, a, b), Replace(s[i := b], a, b);
    assert forall j :: 0 <= j < |s| ==> r[j] == r'[j];
  }

  /** With colons the replacement is not injective: overwriting one of two colons by an underscore names
      another session that shares the saved state. */
  lemma ColonsCollide(t: string, s: string, i: nat, s': string)
    requires Trimmed(s) && 0 < i < |s| - 1 && s[i] == ':' && s' == s[i := '_'] && ':' in s'
    ensures s != s' && NormalizeSession(Some(s)) == s && NormalizeSession(Some(s')) == s'
    ensures StateKey(t, s) == StateKey(t, s')
  {
    UnderscoreForColon(s, i);
    QualifiedIsFixed(s);
    QualifiedIsFixed(s');
  }

  /** For example "a:b:c" and "a:b_c". */
  lemma ColonsCollideExample(t: string, s: string, s': string)
    requires s == "a:b:c" && s' == "a:b_c"
    ensures s != s' && StateKey(t, NormalizeSession(Some(s))) == StateKey(t, NormalizeSession(Some(s')))
  {
    assert s[0] == 'a' && Last(s) == 'c' && s' == s[3 := '_'] && s'[1] == ':';
    ColonsCollide(t, s, 3, s');
  }
}
