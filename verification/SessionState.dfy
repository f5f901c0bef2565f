/** Saving an agent's session files to Redis and restoring them. */
module SessionState {
  import opened Prelude
  import opened Naming
  import opened TenantConfig

  /** JSON text as the library reads and prints it. */
  datatype Codec = Codec(parse: string -> Option<Json>, render: Json -> string)

  predicate HasText(j: Option<Json>, key: string) {
    j.Some? && j.value.Obj? && key in j.value.fields && j.value.fields[key].Str?
  }

  /** Parsing what was printed gives it back, and a text is longer than any string it is the JSON of. */
  ghost predicate Sound(c: Codec) {
    && (forall j :: c.parse(c.render(j)) == Some(j))
    && (forall s, k :: HasText(c.parse(s), k) ==> |c.parse(s).value.fields[k].s| < |s|)
  }

  const RAW := "raw"

  // ---- States and texts ----

  /** The state saved for a file's text: its JSON value, or the text itself under "raw". */
  function Capture(c: Codec, text: string): Json {
    if c.parse(text).Some? then c.parse(text).value else Obj(map[RAW := Str(text)])
  }

  predicate OccursAt(s: string, part: string, i: nat) {
    i + |part| <= |s| && s[i..i + |part|] == part
  }

  predicate Contains(s: string, part: string) {
    exists i :: 0 <= i <= |s| && OccursAt(s, part, i)
  }

  predicate HasRawText(state: Json) {
    state.Obj? && RAW in state.fields && state.fields[RAW].Str?
  }

  /** The text restored for a state. Nothing is restored from a false value, nor where looking for "raw" in it, or
      indexing by it, raises. */
  function Restore(c: Codec, state: Json): Option<string> {
    if !IsTrue(state) then None
    else
      match state
      case Obj(fields) => if HasRawText(state) then Some(fields[RAW].s) else Some(c.render(state))
      case Arr(items) => if Str(RAW) in items then None else Some(c.render(state))
      case Str(s) => if Contains(s, RAW) then None else Some(c.render(state))
      case _ => None
  }

  /** Nothing is restored from a false value, from a number or a truth value, from a list with "raw" in it or from a
      text in which it occurs; an object's text under "raw" is restored as it is, and anything else as JSON. */
  lemma RestoredExactly(c: Codec, state: Json)
    ensures Restore(c, state).None? <==>
            || !IsTrue(state) || state.Bool? || state.Num?
            || (state.Arr? && Str("raw") in state.items) || (state.Str? && Contains(state.s, "raw"))
    ensures Restore(c, state).Some? ==>
              Restore(c, state).value ==
              if state.Obj? && "raw" in state.fields && state.fields["raw"].Str? then state.fields["raw"].s
              else c.render(state)
  {
  }

  /** A restored state is saved again as it was, unless it is an object with a text under "raw" that is not the way a
      text without JSON is saved. */
  lemma SavedAgain(c: Codec, state: Json)
    requires Sound(c) && Restore(c, state).Some?
    ensures Capture(c, Restore(c, state).value) == state <==>
            !HasRawText(state) || (state.fields.Keys == {RAW} && c.parse(state.fields[RAW].s).None?)
  {
    if HasRawText(state) {
      var s := state.fields[RAW].s;
      assert HasText(c.parse(s), RAW) ==> |c.parse(s).value.fields[RAW].s| < |s|;
      if state.fields.Keys == {RAW} {
        assert state.fields == map[RAW := Str(s)];
      }
    } else {
      assert c.parse(c.render(state)) == Some(state);
    }
  }

  /** A file that was saved, restored and saved again: whatever was not JSON comes back exactly, and whatever was a JSON
      object comes back with the same value, unless it had a text under "raw". */
  lemma FilesSurvive(c: Codec, text: string)
    requires Sound(c)
    ensures c.parse(text).None? ==> Restore(c, Capture(c, text)) == Some(text)
    ensures var state := Capture(c, text);
            c.parse(text).Some? && state.Obj? && state.fields != map[] && !HasRawText(state) ==>
              Restore(c, state).Some? && c.parse(Restore(c, state).value) == c.parse(text)
  {
    if c.parse(text).None? {
      assert RAW in Capture(c, text).fields;
    } else {
      assert c.parse(c.render(Capture(c, text))) == Some(Capture(c, text));
    }
  }

  // ---- Files ----

  datatype Node = File(text: string) | Folder

  type Nodes = map<string, Node>

  function SafeFile(key: string): string {
    Replace(SafeKey(key), '/', '_') + ".json"
  }

  /** Position of the last dot; -1 if there is none. */
  function LastDot(name: string, k: nat): (i: int)
    requires k <= |name|
    ensures -1 <= i < k && (i >= 0 ==> name[i] == '.') && forall j :: i < j < k ==> name[j] != '.'
  {
    if k == 0 then -1 else if name[k - 1] == '.' then k - 1 else LastDot(name, k - 1)
  }

  /** The extension of a file name; a dot at either end starts none. */
  function Suffix(name: string): string {
    var i := LastDot(name, |name|);
    if 0 < i < |name| - 1 then name[i..] else ""
  }

  /** Names that the search for a session's file accepts. */
  predicate Matches(key: string, name: string) {
    (Suffix(name) == ".json" || Suffix(name) == "") && Contains(name, Replace(key, ':', '_'))
  }

  /** The name ends in ".json" with something before it, or has no dot inside, or ends in a dot. */
  predicate LooksLikeASession(name: string) {
    || (|name| > 5 && name[|name| - 5..] == ".json")
    || (forall i :: 0 < i < |name| - 1 && name[i] == '.' ==> name[|name| - 1] == '.')
  }

  lemma SuffixExactly(name: string, json: string)
    requires json == ".json"
    ensures Suffix(name) == json <==> |name| > 5 && name[|name| - 5..] == json
  {
    var i, n := LastDot(name, |name|), |name|;
    if n > 5 && name[n - 5..] == json {
      assert name[n - 5] == json[0] && forall k :: 1 <= k < 5 ==> name[n - 5 + k] == json[k];
      assert name[n - 4] != '.' && name[n - 3] != '.' && name[n - 2] != '.' && name[n - 1] != '.';
    }
  }

  /** The search accepts exactly the names in which the session's occurs, with colons replaced, and that look like a
      session's file. */
  lemma MatchesExactly(key: string, name: string)
    ensures Matches(key, name) <==> Contains(name, Replace(key, ':', '_')) && LooksLikeASession(name)
  {
    SuffixExactly(name, ".json");
    var i := LastDot(name, |name|);
    assert 0 < i < |name| - 1 ==> name[|name| - 1] != '.';
  }

  /** Position of the first name from `k` on that the search accepts; past the end if there is none. */
  function FirstPosition(order: seq<string>, key: string, k: nat): (n: nat)
    requires k <= |order|
    ensures k <= n <= |order| && (n < |order| ==> Matches(key, order[n]))
    ensures forall i :: k <= i < n ==> !Matches(key, order[i])
    decreases |order| - k
  {
    if k == |order| || Matches(key, order[k]) then k else FirstPosition(order, key, k + 1)
  }

  function FirstMatch(order: seq<string>, key: string): Option<string> {
    var n := FirstPosition(order, key, 0);
    if n == |order| then None else Some(order[n])
  }

  predicate IsFile(nodes: Nodes, name: string) {
    name in nodes && nodes[name].File?
  }

  /** The file read for a session: its own, else the first in directory order whose name contains the session's. */
  function Chosen(nodes: Nodes, order: seq<string>, key: string): Option<string> {
    if IsFile(nodes, SafeFile(key)) then Some(SafeFile(key)) else FirstMatch(order, key)
  }

  /** A session's file is its name with colons and slashes replaced, so it lies in the directory whatever the name. */
  lemma SafeFileExactly(key: string, k: string, f: string)
    requires k == (if key == "" then "default" else key) && f == SafeFile(key)
    ensures |f| == |k| + 5 && f[|k|..] == ".json"
    ensures forall i :: 0 <= i < |k| ==> f[i] == if k[i] == ':' || k[i] == '/' then '_' else k[i]
    ensures '/' !in f && ':' !in f
  {
    var r := Replace(SafeKey(key), '/', '_');
    assert SafeKey(key) == Replace(k, ':', '_');
    PlainEnd(r, ".json", f);
    assert forall i :: 0 <= i < |r| ==> f[i] == r[i];
  }

  lemma PlainEnd(r: string, json: string, f: string)
    requires f == r + json && json == ".json" && '/' !in r && ':' !in r
    ensures '/' !in f && ':' !in f && f[|r|..] == json
  {
    assert '/' !in json && ':' !in json;
  }

  type States = map<string, Json>

  /** `save_session_state_to_redis`. */
  function Saved(c: Codec, states: States, tenant: string, key: string, nodes: Nodes, order: seq<string>): States {
    var name := Chosen(nodes, order, key);
    if name.Some? && IsFile(nodes, name.value) then
      states[StateKey(tenant, key) := Capture(c, nodes[name.value].text)]
    else states
  }

  /** The text `load_session_state_from_redis` restores. */
  function Stored(c: Codec, states: States, tenant: string, key: string): Option<string> {
    if StateKey(tenant, key) in states then Restore(c, states[StateKey(tenant, key)]) else None
  }

  function Loaded(c: Codec, states: States, tenant: string, key: string, nodes: Nodes): Nodes {
    var text := Stored(c, states, tenant, key);
    if text.None? || (SafeFile(key) in nodes && nodes[SafeFile(key)].Folder?) then nodes
    else nodes[SafeFile(key) := File(text.value)]
  }

  // ---- Restoring and saving again ----

  /** After a session was restored, saving it leaves Redis as it was, exactly under the condition of `SavedAgain`. */
  lemma LoadThenSave(c: Codec, states: States, tenant: string, key: string, nodes: Nodes, order: seq<string>)
    requires Sound(c) && Stored(c, states, tenant, key).Some?
    requires SafeFile(key) in nodes ==> nodes[SafeFile(key)].File?
    ensures var state := states[StateKey(tenant, key)];
            Saved(c, states, tenant, key, Loaded(c, states, tenant, key, nodes), order) == states <==>
            !HasRawText(state) || (state.fields.Keys == {RAW} && c.parse(state.fields[RAW].s).None?)
  {
    var k, state := StateKey(tenant, key), states[StateKey(tenant, key)];
    var text := Restore(c, state).value;
    SavedAgain(c, state);
    assert Saved(c, states, tenant, key, Loaded(c, states, tenant, key, nodes), order) == states[k := Capture(c, text)];
    if Capture(c, text) == state {
      assert states[k := state] == states;
    } else {
      assert states[k := Capture(c, text)][k] != states[k];
    }
  }

  predicate NoSlash(s: string) {
    '/' !in s
  }

  lemma ReplaceNothing(s: string, a: char, b: char)
    requires a !in s
    ensures Replace(s, a, b) == s
  {
    assert forall i :: 0 <= i < |s| ==> s[i] in s;
  }

  lemma SafeFileOfPlain(n: string)
    requires NoSlash(n) && n != ""
    ensures SafeFile(n) == SafeKey(n) + ".json"
  {
    var k := SafeKey(n);
    forall i | 0 <= i < |k|
      ensures k[i] != '/'
    {
      assert n[i] in n;
    }
    ReplaceNothing(k, '/', '_');
  }

  lemma NormalizedPlain(a: string)
    requires NoColon(a) && NoSlash(a)
    ensures var n := NormalizeSession(Some(a)); OneColon(n) && NoSlash(n) && n != ""
  {
    var n := NormalizeSession(Some(a));
    ColonFreeShape(a, n);
    NormalizedShape(Some(a));
    StripKeepsCharacters(a, '/');
    NoSlashQualified(if Blank(Some(a)) then DEFAULT_SESSION else Strip(a), n);
  }

  lemma NoSlashQualified(s: string, n: string)
    requires NoSlash(s) && n == Qualify(s)
    ensures NoSlash(n)
  {
    assert NoSlash("api:");
  }

  lemma SameStem(a: string, b: string, post: string)
    requires a + post == b + post
    ensures a == b
  {
    assert a == (a + post)[..|a + post| - |post|];
    assert b == (b + post)[..|b + post| - |post|];
  }

  lemma FilesSeparate(n: string, m: string)
    requires OneColon(n) && OneColon(m) && NoSlash(n) && NoSlash(m) && SafeFile(n) == SafeFile(m)
    ensures n == m
  {
    SafeFileOfPlain(n);
    SafeFileOfPlain(m);
    SameStem(SafeKey(n), SafeKey(m), ".json");
    OneColonNamesSeparate(n, m);
  }

  /** Sessions made from client ids without colons and slashes share neither a file nor a saved state. */
  lemma PlainSessionsSeparate(a: string, b: string, n: string, m: string, tenant: string)
    requires NoColon(a) && NoColon(b) && NoSlash(a) && NoSlash(b)
    requires n == NormalizeSession(Some(a)) && m == NormalizeSession(Some(b)) && n != m
    ensures SafeFile(n) != SafeFile(m) && StateKey(tenant, n) != StateKey(tenant, m)
  {
    NormalizedPlain(a);
    NormalizedPlain(b);
    ColonFreeSessionsSeparate(tenant, a, b);
    if SafeFile(n) == SafeFile(m) {
      FilesSeparate(n, m);
    }
  }

  lemma SeparateKeysStay(c: Codec, states: States, tenant: string, n: string, m: string, nodes: Nodes,
                         order: seq<string>)
    requires SafeFile(n) != SafeFile(m) && StateKey(tenant, n) != StateKey(tenant, m)
    ensures Same(Loaded(c, states, tenant, n, nodes), nodes, SafeFile(m))
    ensures Same(Saved(c, states, tenant, n, nodes, order), states, StateKey(tenant, m))
  {
  }

  predicate Same<V(==)>(a: map<string, V>, b: map<string, V>, key: string) {
    (key in a <==> key in b) && (key in a && key in b ==> a[key] == b[key])
  }

  /** Restoring or saving one session disturbs neither the file nor the saved state of another with a plain id. */
  lemma OthersUndisturbed(c: Codec, states: States, tenant: string, a: string, b: string, n: string, m: string,
                          nodes: Nodes, order: seq<string>)
    requires NoColon(a) && NoColon(b) && NoSlash(a) && NoSlash(b)
    requires n == NormalizeSession(Some(a)) && m == NormalizeSession(Some(b)) && n != m
    ensures Same(Loaded(c, states, tenant, n, nodes), nodes, SafeFile(m))
    ensures Same(Saved(c, states, tenant, n, nodes, order), states, StateKey(tenant, m))
  {
    PlainSessionsSeparate(a, b, n, m, tenant);
    SeparateKeysStay(c, states, tenant, n, m, nodes, order);
  }

  // ---- The search for a session's file ----

  /** The first name of the search that contains the session's is at position `p`. */
  predicate FirstAt(order: seq<string>, key: string, p: int) {
    0 <= p < |order| && Matches(key, order[p]) && forall i :: 0 <= i < p ==> !Matches(key, order[i])
  }

  lemma FirstMatchIsFirst(order: seq<string>, key: string, p: nat)
    requires FirstAt(order, key, p)
    ensures FirstMatch(order, key) == Some(order[p])
  {
    var n := FirstPosition(order, key, 0);
    assert !(n < p) && !(p < n);
  }

  /** A session's own file is saved exactly if it is there; otherwise the first match of the search is, whosever it
      is, and nothing if that is a directory or nothing matches. */
  lemma OwnFileOrFirstMatch(c: Codec, states: States, tenant: string, key: string, nodes: Nodes, order: seq<string>)
    requires forall name :: name in order ==> name in nodes
    ensures var own, states', k := SafeFile(key), Saved(c, states, tenant, key, nodes, order), StateKey(tenant, key);
            && (IsFile(nodes, own) ==> states' == states[k := Capture(c, nodes[own].text)])
            && (!IsFile(nodes, own) && (forall name :: name in order ==> !Matches(key, name)) ==> states' == states)
            && forall p :: !IsFile(nodes, own) && FirstAt(order, key, p) ==>
                             states' == match nodes[order[p]]
                                        case File(text) => states[k := Capture(c, text)]
                                        case Folder => states
  {
    forall p | FirstAt(order, key, p)
      ensures FirstMatch(order, key) == Some(order[p])
    {
      FirstMatchIsFirst(order, key, p);
    }
    if !IsFile(nodes, SafeFile(key)) && forall name :: name in order ==> !Matches(key, name) {
      assert FirstMatch(order, key).None?;
    }
  }

  /** So a session without a file of its own can be saved with the state of another whose name contains its own: "api:a"
      with that of "api:ab". */
  lemma AnothersFileIsSaved(c: Codec, states: States, tenant: string, key: string, other: string, name: string,
                            text: string)
    requires key == "api:a" && other == "api:ab" && name == "api_ab.json"
    ensures SafeFile(other) == name
    ensures Saved(c, states, tenant, key, map[name := File(text)], [name]) ==
            states[StateKey(tenant, key) := Capture(c, text)]
  {
    NamesOfExample(key, other, name);
    assert FirstMatch([name], key) == Some(name);
  }

  lemma NamesOfExample(key: string, other: string, name: string)
    requires key == "api:a" && other == "api:ab" && name == "api_ab.json"
    ensures SafeFile(other) == name && SafeFile(key) != name && Matches(key, name)
  {
    OtherOfExample(other, "api_ab");
    SuffixOfExample(name);
    assert |SafeFile(key)| == 10;
    PartOfExample(key, name);
  }

  lemma OtherOfExample(other: string, stem: string)
    requires other == "api:ab" && stem == "api_ab"
    ensures SafeFile(other) == stem + ".json"
  {
    StemOfExample(other, stem);
    SafeFileOfPlain(other);
  }

  lemma StemOfExample(other: string, stem: string)
    requires other == "api:ab" && stem == "api_ab"
    ensures SafeKey(other) == stem && NoSlash(other)
  {
    var r := Replace(other, ':', '_');
    assert |r| == 6;
    assert forall i :: 0 <= i < 6 ==> r[i] == stem[i];
  }

  lemma PartOfExample(key: string, name: string)
    requires key == "api:a" && name == "api_ab.json"
    ensures Contains(name, Replace(key, ':', '_'))
  {
    assert Replace(key, ':', '_') == "api_a" == name[0..5];
    assert OccursAt(name, Replace(key, ':', '_'), 0);
  }

  lemma SuffixOfExample(name: string)
    requires name == "api_ab.json"
    ensures Suffix(name) == ".json"
  {
    assert LastDot(name, 7) == 6;
    assert LastDot(name, 8) == 6;
    assert LastDot(name, 9) == 6;
    assert LastDot(name, 10) == 6;
    assert LastDot(name, 11) == 6;
  }
}
