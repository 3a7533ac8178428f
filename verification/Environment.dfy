// The environment of a guest's process, from the image's KEY=VALUE list through
// oakd's map and MMDS to oak-init's KEY=VALUE list.

module Environment {
  import opened Common
  import opened Text

  type Env = map<string, string>

  // ----- KEY=VALUE -------------------------------------------------------------------

  function Pair(k: string, v: string): string {
    k + "=" + v
  }

  /** Split at the first '='; None without one. */
  function SplitAt(kv: string): Option<(string, string)> {
    if kv == "" then None
    else if kv[0] == '=' then Some(("", kv[1..]))
    else match SplitAt(kv[1..])
         case None => None
         case Some((k, v)) => Some(([kv[0]] + k, v))
  }

  /** mmds.splitEnv. */
  method SplitEnv(kv: string) returns (r: Option<(string, string)>)
    ensures r == SplitAt(kv)
  {
    for i := 0 to |kv|
      invariant '=' !in kv[..i]
    {
      if kv[i] == '=' {
        assert kv == kv[..i] + "=" + kv[i + 1..];
        SplitPair(kv[..i], kv[i + 1..]);
        return Some((kv[..i], kv[i + 1..]));
      }
      assert kv[..i + 1] == kv[..i] + [kv[i]];
    }
    assert kv[..|kv|] == kv;
    NoPair(kv);
    return None;
  }

  lemma {:induction false} SplitPair(k: string, v: string)
    requires '=' !in k
    ensures SplitAt(Pair(k, v)) == Some((k, v))
  {
    var kv := k + "=" + v;
    if k == "" {
      assert kv[0] == '=' && kv[1..] == v;
    } else {
      assert kv[0] == k[0] && kv[1..] == k[1..] + "=" + v;
      SplitPair(k[1..], v);
      assert [k[0]] + k[1..] == k;
    }
  }

  lemma {:induction false} NoPair(kv: string)
    ensures SplitAt(kv).None? <==> '=' !in kv
    ensures SplitAt(kv).Some? ==> '=' !in SplitAt(kv).value.0 && kv == SplitAt(kv).value.0 + "=" + SplitAt(kv).value.1
  {
    if kv != "" && kv[0] != '=' {
      NoPair(kv[1..]);
      assert kv == [kv[0]] + kv[1..];
    }
  }

  /** The map a KEY=VALUE list stands for: the last duplicate wins, entries
      without '=' count for nothing. */
  function EnvMap(env: seq<string>): Env {
    if env == [] then map[]
    else
      var before := EnvMap(env[..|env| - 1]);
      match SplitAt(env[|env| - 1])
      case None => before
      case Some((k, v)) => before[k := v]
  }

  /** The last entry that sets `k` sets it to `v`. */
  ghost predicate LastSets(env: seq<string>, k: string, v: string) {
    exists i :: LastAt(env, k, v, i)
  }

  ghost predicate LastAt(env: seq<string>, k: string, v: string, i: int) {
    0 <= i < |env| && env[i] == k + "=" + v && forall j | i < j < |env| :: !(k + "=" <= env[j])
  }

  /** No entry sets `k`. */
  ghost predicate Unset(env: seq<string>, k: string) {
    forall i | 0 <= i < |env| :: !(k + "=" <= env[i])
  }

  lemma LastSetsHere(env: seq<string>, k: string, v: string, w: string)
    requires env != [] && env[|env| - 1] == k + "=" + w
    ensures LastSets(env, k, v) <==> v == w
  {
    assert k + "=" <= k + "=" + w;
    assert LastAt(env, k, w, |env| - 1);
    assert (k + "=" + w)[|k| + 1..] == w && (k + "=" + v)[|k| + 1..] == v;
  }

  lemma LastSetsBefore(env: seq<string>, k: string, v: string)
    requires env != [] && !(k + "=" <= env[|env| - 1])
    ensures LastSets(env, k, v) <==> LastSets(env[..|env| - 1], k, v)
  {
    var n := |env| - 1;
    forall i | 0 <= i < n ensures LastAt(env, k, v, i) <==> LastAt(env[..n], k, v, i) { SameBefore(env, k, v, i); }
    assert k + "=" <= k + "=" + v;
    if i :| LastAt(env, k, v, i) { assert i < n && LastAt(env[..n], k, v, i); }
    if i :| LastAt(env[..n], k, v, i) { assert LastAt(env, k, v, i); }
  }

  lemma SameBefore(env: seq<string>, k: string, v: string, i: nat)
    requires i < |env| - 1 && !(k + "=" <= env[|env| - 1])
    ensures LastAt(env, k, v, i) <==> LastAt(env[..|env| - 1], k, v, i)
  {
    var front := env[..|env| - 1];
    assert forall j | 0 <= j < |front| :: front[j] == env[j];
  }

  /** The map says what the list's last entry for a key says. */
  lemma {:induction false} EnvMapSets(env: seq<string>, k: string)
    requires '=' !in k
    ensures Unset(env, k) <==> k !in EnvMap(env)
    ensures forall v :: LastSets(env, k, v) <==> k in EnvMap(env) && EnvMap(env)[k] == v
  {
    if env != [] {
      var n := |env| - 1;
      var front, kv := env[..n], env[n];
      assert forall i | 0 <= i < n :: front[i] == env[i];
      EnvMapSets(front, k);
      PrefixIsKey(kv, k);
      NoPair(kv);
      hide SplitAt, LastSets;
      if k + "=" <= kv {
        forall v ensures LastSets(env, k, v) <==> v == SplitAt(kv).value.1 { LastSetsHere(env, k, v, SplitAt(kv).value.1); }
      } else {
        forall v ensures LastSets(env, k, v) <==> LastSets(front, k, v) { LastSetsBefore(env, k, v); }
      }
    }
  }

  // ----- order -------------------------------------------------------------------------

  predicate Less(a: string, b: string) {
    if b == "" then false
    else if a == "" then true
    else a[0] < b[0] || (a[0] == b[0] && Less(a[1..], b[1..]))
  }

  /** The strings agree up to `k`, where `a` has the lower character. */
  ghost predicate LowerAt(a: string, b: string, k: int) {
    0 <= k < |a| && k < |b| && a[..k] == b[..k] && a[k] < b[k]
  }

  lemma LowerLater(a: string, b: string, k: nat)
    requires a != "" && b != ""
    ensures LowerAt(a, b, k + 1) <==> a[0] == b[0] && LowerAt(a[1..], b[1..], k)
  {
    if k + 1 <= |a| && k + 1 <= |b| {
      assert a[..k + 1] == [a[0]] + a[1..][..k] && b[..k + 1] == [b[0]] + b[1..][..k];
      if a[..k + 1] == b[..k + 1] { assert a[..k + 1][1..] == a[1..][..k] && b[..k + 1][1..] == b[1..][..k]; }
    }
  }

  /** The order of Go's strings: by the first character that differs, a prefix first. */
  lemma {:induction false} LessIsByFirstDifference(a: string, b: string)
    ensures Less(a, b) <==> a < b || exists k :: LowerAt(a, b, k)
  {
    if a != "" && b != "" {
      LessIsByFirstDifference(a[1..], b[1..]);
      assert LowerAt(a, b, 0) <==> a[0] < b[0];
      assert a < b <==> a[0] == b[0] && a[1..] < b[1..];
      if k :| LowerAt(a, b, k) {
        if k > 0 { LowerLater(a, b, k - 1); }
      }
      if k :| LowerAt(a[1..], b[1..], k) {
        LowerLater(a, b, k);
      }
    }
  }

  lemma {:induction false} LessIsTotal(a: string, b: string)
    ensures !Less(a, a)
    ensures Less(a, b) || Less(b, a) || a == b
    ensures !(Less(a, b) && Less(b, a))
  {
    if a != "" {
      LessIsTotal(a[1..], if b == "" then "" else b[1..]);
      if b != "" && a[0] == b[0] { assert a == [a[0]] + a[1..] && b == [b[0]] + b[1..]; }
    }
  }

  lemma {:induction false} LessIsTransitive(a: string, b: string, c: string)
    requires Less(a, b) && Less(b, c)
    ensures Less(a, c)
  {
    if a != "" && a[0] == b[0] && b[0] == c[0] { LessIsTransitive(a[1..], b[1..], c[1..]); }
  }

  predicate Ascending(keys: seq<string>) {
    forall i, j | 0 <= i < j < |keys| :: Less(keys[i], keys[j])
  }

  predicate IsLeast(keys: set<string>, k: string) {
    k in keys && forall j | j in keys :: j == k || Less(k, j)
  }

  /** sort.Strings on the keys of a map. */
  method SortedKeys(keys: set<string>) returns (out: seq<string>)
    ensures Ascending(out) && |out| == |keys| && forall k :: k in out <==> k in keys
  {
    out := [];
    var rest := keys;
    while rest != {}
      invariant rest <= keys && |out| + |rest| == |keys|
      invariant Ascending(out) && forall k :: k in out <==> k in keys - rest
      invariant forall k, j | k in out && j in rest :: Less(k, j)
      decreases |rest|
    {
      var k := LeastOf(rest);
      ghost var so := out;
      rest := rest - {k};
      out := out + [k];
      forall i, j | 0 <= i < j < |out| ensures Less(out[i], out[j]) {
        if j == |so| { assert out[i] in so; }
      }
    }
  }

  method LeastOf(keys: set<string>) returns (k: string)
    requires keys != {}
    ensures IsLeast(keys, k)
  {
    k :| k in keys;
    var rest := keys - {k};
    while rest != {}
      invariant rest <= keys && IsLeast(keys - rest, k)
      decreases |rest|
    {
      var j :| j in rest;
      ghost var was := k;
      LessIsTotal(j, k);
      if Less(j, k) {
        forall i | i in keys - rest && i != k ensures Less(j, i) { LessIsTransitive(j, k, i); }
        k := j;
      }
      rest := rest - {j};
    }
  }

  // ----- MergeEnv ------------------------------------------------------------------------

  /** `out` lists `m`: one KEY=VALUE per key, keys strictly ascending. */
  ghost predicate Lists(out: seq<string>, m: Env) {
    exists keys :: ListsBy(out, m, keys)
  }

  ghost predicate ListsBy(out: seq<string>, m: Env, keys: seq<string>) {
    && Ascending(keys) && |keys| == |out|
    && (forall k :: k in keys <==> k in m)
    && (forall i | 0 <= i < |out| :: out[i] == Pair(keys[i], m[keys[i]]))
  }

  /** mmds.MergeEnv: the override wins. */
  method MergeEnv(imageEnv: seq<string>, override: Env) returns (out: seq<string>)
    ensures Lists(out, EnvMap(imageEnv) + override)
  {
    var merged := EnvSliceToMap(imageEnv);
    merged := merged + override;
    out := Listing(merged);
  }

  method Listing(merged: Env) returns (out: seq<string>)
    ensures Lists(out, merged)
  {
    hide Pair, Ascending;
    var keys := SortedKeys(merged.Keys);
    out := [];
    for i := 0 to |keys|
      invariant |out| == i && forall j | 0 <= j < i :: keys[j] in merged && out[j] == Pair(keys[j], merged[keys[j]])
    {
      assert keys[i] in keys;
      out := out + [Pair(keys[i], merged[keys[i]])];
    }
    assert ListsBy(out, merged, keys);
  }

  /** The loop of MergeEnv over the image's list, and envSliceToMap. */
  method EnvSliceToMap(env: seq<string>) returns (m: Env)
    ensures m == EnvMap(env)
  {
    hide SplitAt;
    m := map[];
    for i := 0 to |env|
      invariant m == EnvMap(env[..i])
    {
      assert env[..i + 1][..i] == env[..i];
      var pair := SplitEnv(env[i]);
      if pair.Some? {
        m := m[pair.value.0 := pair.value.1];
      }
    }
    assert env[..|env|] == env;
  }

  predicate PlainKeys(m: Env) {
    forall k | k in m :: '=' !in k
  }

  lemma {:induction false} ImageKeysArePlain(env: seq<string>)
    ensures PlainKeys(EnvMap(env))
  {
    if env != [] {
      ImageKeysArePlain(env[..|env| - 1]);
      NoPair(env[|env| - 1]);
    }
  }

  /** Reading a list back gives the map it lists exactly when no key has an '=' in it. */
  lemma ListReadsBack(out: seq<string>, m: Env)
    requires Lists(out, m)
    ensures EnvMap(out) == m <==> PlainKeys(m)
  {
    ImageKeysArePlain(out);
    if PlainKeys(m) { PlainListReadsBack(out, m); }
  }

  lemma PlainListReadsBack(out: seq<string>, m: Env)
    requires Lists(out, m) && PlainKeys(m)
    ensures EnvMap(out) == m
  {
    var keys :| ListsBy(out, m, keys);
    PrefixReadsBack(out, m, keys, |out|);
    assert out[..|out|] == out;
    hide EnvMap, Ascending, PlainKeys, Pair;
    forall k ensures k in EnvMap(out) <==> k in m {
      if k in m {
        assert k in keys;
      }
    }
  }

  ghost predicate ReadSoFar(e: Env, m: Env, keys: seq<string>, n: nat)
    requires n <= |keys|
  {
    && (forall i | 0 <= i < n :: keys[i] in e)
    && (forall k | k in e :: k in m && e[k] == m[k])
  }

  lemma {:induction false} PrefixReadsBack(out: seq<string>, m: Env, keys: seq<string>, n: nat)
    requires ListsBy(out, m, keys) && PlainKeys(m) && n <= |out|
    ensures ReadSoFar(EnvMap(out[..n]), m, keys, n)
  {
    hide Pair, Ascending;
    if n == 0 {
    } else {
      PrefixReadsBack(out, m, keys, n - 1);
      var key := keys[n - 1];
      assert out[..n][..n - 1] == out[..n - 1] && out[..n][n - 1] == Pair(key, m[key]);
      assert key in keys;
      SplitPair(key, m[key]);
      hide SplitAt, ListsBy, PlainKeys;
      assert EnvMap(out[..n]) == EnvMap(out[..n - 1])[key := m[key]];
    }
  }

  /** A map has one listing: MergeEnv's output is determined. */
  lemma OneListing(out: seq<string>, out': seq<string>, m: Env)
    requires Lists(out, m) && Lists(out', m)
    ensures out == out'
  {
    var keys :| ListsBy(out, m, keys);
    var keys' :| ListsBy(out', m, keys');
    AscendingCount(keys, m.Keys);
    AscendingCount(keys', m.Keys);
    hide Ascending, Pair;
    SameAscending(keys, keys');
  }

  lemma {:induction false} AscendingCount(keys: seq<string>, members: set<string>)
    requires Ascending(keys) && forall k :: k in keys <==> k in members
    ensures |keys| == |members|
  {
    if keys == [] {
      assert members == {};
    } else {
      var n := |keys| - 1;
      var last, front := keys[n], keys[..n];
      LessIsTotal(last, last);
      assert last in keys;
      forall k ensures k in front <==> k in members - {last} {
        assert k in keys <==> k in front || k == last;
      }
      AscendingCount(front, members - {last});
    }
  }

  lemma {:induction false} SameAscending(a: seq<string>, b: seq<string>)
    requires Ascending(a) && Ascending(b) && |a| == |b| && forall k :: k in a <==> k in b
    ensures a == b
  {
    if a == [] {
    } else {
      assert a[0] in a;
      assert b[0] in b;
      var i :| 0 <= i < |b| && b[i] == a[0];
      var j :| 0 <= j < |a| && a[j] == b[0];
      LessIsTotal(a[0], b[0]);
      assert a[0] == b[0];
      forall k ensures k in a[1..] <==> k in b[1..] {
        LessIsTotal(k, k);
        assert k in a <==> k == a[0] || k in a[1..];
        assert k in b <==> k == b[0] || k in b[1..];
        assert a[0] !in a[1..] && b[0] !in b[1..] by { LessIsTotal(a[0], a[0]); }
      }
      SameAscending(a[1..], b[1..]);
      assert a == [a[0]] + a[1..] && b == [b[0]] + b[1..];
    }
  }

  // ----- oakd's side -----------------------------------------------------------------------

  const PORT_VAR: string := "PORT"
  const PATH_VAR: string := "PATH"
  const HOME_VAR: string := "HOME"
  const ROOT_HOME: string := "/root"
  const DEFAULT_PATH: string := "/usr/local/sbin:/usr/local/bin:/usr/sbin:/usr/bin:/sbin:/bin"

  /** envSliceHasKey. */
  method EnvSliceHasKey(env: seq<string>, key: string) returns (found: bool)
    requires '=' !in key
    ensures found <==> key in EnvMap(env)
  {
    found := false;
    for i := 0 to |env|
      invariant found <==> key in EnvMap(env[..i])
    {
      assert env[..i + 1][..i] == env[..i];
      PrefixIsKey(env[i], key);
      if key + "=" <= env[i] {
        found := true;
      }
    }
    assert env[..|env|] == env;
  }

  lemma PrefixIsKey(kv: string, key: string)
    requires '=' !in key
    ensures key + "=" <= kv <==> SplitAt(kv).Some? && SplitAt(kv).value.0 == key
  {
    if key + "=" <= kv {
      assert kv == key + "=" + kv[|key| + 1..];
      SplitPair(key, kv[|key| + 1..]);
    }
    NoPair(kv);
  }

  /** Image env, then app config, then secrets, each over the one before. */
  function Layered(imageEnv: seq<string>, appEnv: Env, secrets: Env): Env {
    EnvMap(imageEnv) + appEnv + secrets
  }

  /** `default` where no layer sets the key. */
  function Defaulted(m: Env, key: string, value: string): Env {
    if key in m then m else m[key := value]
  }

  function WithPort(m: Env, ports: seq<nat>): Env {
    if ports == [] then m else Defaulted(m, PORT_VAR, Decimal(ports[0]))
  }

  /** buildGuestEnv's map before it is flattened to a list and read back. */
  function Wanted(imageEnv: seq<string>, appEnv: Env, secrets: Env, ports: seq<nat>): Env {
    Defaulted(WithPort(Layered(imageEnv, appEnv, secrets), ports), PATH_VAR, DEFAULT_PATH)
  }

  lemma WantedIsPlain(imageEnv: seq<string>, appEnv: Env, secrets: Env, ports: seq<nat>)
    ensures PlainKeys(Wanted(imageEnv, appEnv, secrets, ports)) <==> PlainKeys(appEnv) && PlainKeys(secrets)
  {
    NamesArePlain();
    ImageKeysArePlain(imageEnv);
    hide DEFAULT_PATH, PORT_VAR, PATH_VAR, EnvMap, Decimal;
    var m := Wanted(imageEnv, appEnv, secrets, ports);
    if PlainKeys(m) {
      forall k | k in appEnv ensures '=' !in k { assert k in m; }
      forall k | k in secrets ensures '=' !in k { assert k in m; }
    }
  }

  /** `k` has the secret's value, else app env's, else that of the image's last
      entry for it, else the default. */
  ghost predicate Decided(m: Env, k: string, imageEnv: seq<string>, appEnv: Env, secrets: Env, defaults: Env) {
    if k in secrets then k in m && m[k] == secrets[k]
    else if k in appEnv then k in m && m[k] == appEnv[k]
    else
      && (forall v | LastSets(imageEnv, k, v) :: k in m && m[k] == v)
      && (Unset(imageEnv, k) ==> if k in defaults then k in m && m[k] == defaults[k] else k !in m)
  }

  /** buildGuestEnv's own defaults. */
  function OakdDefaults(ports: seq<nat>): Env {
    map["PATH" := "/usr/local/sbin:/usr/local/bin:/usr/sbin:/usr/bin:/sbin:/bin"]
    + if ports == [] then map[] else map["PORT" := Decimal(ports[0])]
  }

  lemma WantedByKey(imageEnv: seq<string>, appEnv: Env, secrets: Env, ports: seq<nat>, k: string)
    requires '=' !in k
    ensures Decided(Wanted(imageEnv, appEnv, secrets, ports), k, imageEnv, appEnv, secrets, OakdDefaults(ports))
  {
    EnvMapSets(imageEnv, k);
    assert OakdDefaults(ports) == map[PATH_VAR := DEFAULT_PATH] + if ports == [] then map[] else map[PORT_VAR := Decimal(ports[0])];
    assert PORT_VAR != PATH_VAR;
    hide EnvMap, LastSets, Unset, Decimal, DEFAULT_PATH, PATH_VAR, PORT_VAR, OakdDefaults;
  }

  /** buildGuestEnv, ending with envSliceToMap(MergeEnv(...)). */
  method BuildGuestEnv(imageEnv: seq<string>, appEnv: Env, secrets: Env, ports: seq<nat>) returns (env: Env)
    ensures env == Wanted(imageEnv, appEnv, secrets, ports) <==> PlainKeys(appEnv) && PlainKeys(secrets)
    ensures PlainKeys(env)
    ensures PlainKeys(appEnv) && PlainKeys(secrets) ==>
              forall k | '=' !in k :: Decided(env, k, imageEnv, appEnv, secrets, OakdDefaults(ports))
  {
    NamesArePlain();
    WantedIsPlain(imageEnv, appEnv, secrets, ports);
    hide DEFAULT_PATH, PORT_VAR, PATH_VAR, EnvMap, SplitAt, Decimal, Defaulted, Pair, Lists, Decided, OakdDefaults;
    var override := appEnv + secrets;
    assert EnvMap(imageEnv) + override == Layered(imageEnv, appEnv, secrets);
    if ports != [] {
      override := DefaultVar(imageEnv, override, PORT_VAR, Decimal(ports[0]));
    }
    override := DefaultVar(imageEnv, override, PATH_VAR, DEFAULT_PATH);
    var merged := MergeEnv(imageEnv, override);
    assert EnvMap(imageEnv) + override == Wanted(imageEnv, appEnv, secrets, ports);
    ListReadsBack(merged, EnvMap(imageEnv) + override);
    ImageKeysArePlain(merged);
    env := EnvSliceToMap(merged);
    forall k | '=' !in k { WantedByKey(imageEnv, appEnv, secrets, ports, k); }
  }

  /** A default goes into the override only where neither it nor the image has the key. */
  method DefaultVar(imageEnv: seq<string>, override: Env, key: string, value: string) returns (r: Env)
    requires '=' !in key
    ensures EnvMap(imageEnv) + r == Defaulted(EnvMap(imageEnv) + override, key, value)
  {
    hide EnvMap;
    r := override;
    if key !in override {
      var inImage := EnvSliceHasKey(imageEnv, key);
      if !inImage {
        r := override[key := value];
        assert EnvMap(imageEnv) + r == (EnvMap(imageEnv) + override)[key := value];
      }
    }
  }

  lemma NamesArePlain()
    ensures '=' !in PORT_VAR && '=' !in PATH_VAR && '=' !in HOME_VAR && PATH_VAR != HOME_VAR
  {
  }

  // ----- oak-init's side ---------------------------------------------------------------------

  function BaselineEnv(env: Env): seq<string> {
    var path := if PATH_VAR in env then env[PATH_VAR] else "";
    var home := if HOME_VAR in env then env[HOME_VAR] else "";
    [PATH_VAR + "=" + (if path == "" then DEFAULT_PATH else path), HOME_VAR + "=" + (if home == "" then ROOT_HOME else home)]
  }

  lemma BaselineMap(env: Env)
    ensures EnvMap(BaselineEnv(env)).Keys == {PATH_VAR, HOME_VAR}
    ensures PATH_VAR !in env ==> EnvMap(BaselineEnv(env))[PATH_VAR] == DEFAULT_PATH
    ensures HOME_VAR !in env ==> EnvMap(BaselineEnv(env))[HOME_VAR] == ROOT_HOME
  {
    NamesArePlain();
    hide DEFAULT_PATH, PATH_VAR, HOME_VAR, ROOT_HOME;
    var path := if PATH_VAR in env && env[PATH_VAR] != "" then env[PATH_VAR] else DEFAULT_PATH;
    var home := if HOME_VAR in env && env[HOME_VAR] != "" then env[HOME_VAR] else ROOT_HOME;
    var base := BaselineEnv(env);
    assert base == [PATH_VAR + "=" + path, HOME_VAR + "=" + home];
    SplitPair(PATH_VAR, path);
    SplitPair(HOME_VAR, home);
    assert base[..1] == [base[0]] && [base[0]][..0] == [];
    assert EnvMap([base[0]]) == map[PATH_VAR := path];
  }

  /** ... and oak-init's on top. */
  function GuestDefaults(ports: seq<nat>): Env {
    OakdDefaults(ports)["HOME" := "/root"]
  }

  lemma GuestByKey(imageEnv: seq<string>, appEnv: Env, secrets: Env, ports: seq<nat>, k: string)
    requires '=' !in k
    ensures Decided(Defaulted(Wanted(imageEnv, appEnv, secrets, ports), HOME_VAR, ROOT_HOME), k,
                    imageEnv, appEnv, secrets, GuestDefaults(ports))
  {
    WantedByKey(imageEnv, appEnv, secrets, ports, k);
    EnvMapSets(imageEnv, k);
    hide EnvMap, LastSets, Unset, Decimal, Wanted;
    assert HOME_VAR !in OakdDefaults(ports);
  }

  /** The environment a guest's process gets, after the merge, the map and the
      second merge: as a map, image env overridden by app env then secrets, with
      PORT (if the app has services), PATH and HOME defaulted exactly where no
      layer sets them, if and only if no override key has an '=' in it; as a list,
      keys strictly ascending. */
  method GuestEnvironment(imageEnv: seq<string>, appEnv: Env, secrets: Env, ports: seq<nat>) returns (child: seq<string>)
    ensures var want := Defaulted(Wanted(imageEnv, appEnv, secrets, ports), HOME_VAR, ROOT_HOME);
            EnvMap(child) == want <==> PlainKeys(appEnv) && PlainKeys(secrets)
    ensures Lists(child, EnvMap(child))
    ensures PlainKeys(appEnv) && PlainKeys(secrets) ==>
              forall k | '=' !in k :: Decided(EnvMap(child), k, imageEnv, appEnv, secrets, GuestDefaults(ports))
  {
    NamesArePlain();
    WantedIsPlain(imageEnv, appEnv, secrets, ports);
    hide DEFAULT_PATH, PATH_VAR, HOME_VAR, ROOT_HOME, EnvMap, SplitAt, BaselineEnv, Wanted, Lists, Decided, GuestDefaults;
    var env := BuildGuestEnv(imageEnv, appEnv, secrets, ports);
    BaselineMap(env);
    child := MergeEnv(BaselineEnv(env), env);
    ImageKeysArePlain(BaselineEnv(env));
    ImageKeysArePlain(child);
    ListReadsBack(child, EnvMap(BaselineEnv(env)) + env);
    ghost var want := Wanted(imageEnv, appEnv, secrets, ports);
    if env == want {
      PathIsWanted(imageEnv, appEnv, secrets, ports);
      assert EnvMap(BaselineEnv(env)) + env == Defaulted(env, HOME_VAR, ROOT_HOME);
    } else if EnvMap(child) == Defaulted(want, HOME_VAR, ROOT_HOME) {
      StillPlain(want, HOME_VAR, ROOT_HOME);
    }
    forall k | '=' !in k { GuestByKey(imageEnv, appEnv, secrets, ports, k); }
  }

  lemma PathIsWanted(imageEnv: seq<string>, appEnv: Env, secrets: Env, ports: seq<nat>)
    ensures PATH_VAR in Wanted(imageEnv, appEnv, secrets, ports)
  {
  }

  lemma StillPlain(m: Env, key: string, value: string)
    requires PlainKeys(Defaulted(m, key, value))
    ensures PlainKeys(m)
  {
    forall k | k in m ensures '=' !in k { assert k in Defaulted(m, key, value); }
  }

  lemma OneKey(keys: seq<string>, k: string)
    requires Ascending(keys) && keys != [] && forall i | 0 <= i < |keys| :: keys[i] == k
    ensures |keys| == 1
  {
    LessIsTotal(k, k);
    if |keys| > 1 { assert !Less(keys[0], keys[1]); }
  }

  /** A key with '=' in it comes back split there: `a=b` set to `v` as `a` set to `b=v`. */
  lemma KeyWithEqualsIsSplit(a: string, b: string, v: string)
    requires '=' !in a
    ensures var m: Env := map[Pair(a, b) := v];
            forall out | Lists(out, m) :: EnvMap(out) == map[a := Pair(b, v)]
  {
    var k := Pair(a, b);
    var m: Env := map[k := v];
    forall out | Lists(out, m) ensures EnvMap(out) == map[a := Pair(b, v)] {
      var keys :| ListsBy(out, m, keys);
      assert k in keys;
      forall i | 0 <= i < |keys| ensures keys[i] == k { assert keys[i] in keys; }
      OneKey(keys, k);
      assert out[0] == Pair(k, v) == Pair(a, Pair(b, v));
      SplitPair(a, Pair(b, v));
      assert out[..0] == [];
    }
  }
}
