/**
 * The installation's identity: the `.project_unique_id` file under the
 * project root, and the `PROJ_` identifier generated when that file is
 * missing or blank. The project root, the application name, the clock,
 * `uniqid()` and the hash functions are inputs (`Env`); the files under the
 * root are a map from path to contents.
 */
module Identity {
  import opened Options
  import Php

  /** The files the agent reads and writes, by absolute path. */
  type Files = map<string, string>

  predicate IsLowerHex(c: char) {
    ('0' <= c <= '9') || ('a' <= c <= 'f')
  }

  predicate IsUpperHex(c: char) {
    ('0' <= c <= '9') || ('A' <= c <= 'F')
  }

  /** What `hash('sha256', …)` returns: 64 lower-case hexadecimal digits. */
  type Sha256Hex = s: string | |s| == 64 && forall i | 0 <= i < |s| :: IsLowerHex(s[i])
    witness seq(64, i => '0')

  /**
   * Everything the agent takes from its surroundings: the project root, the
   * application name, `date('Y-m-d H:i:s')`, `time()`, `uniqid()`, and the
   * two hash functions.
   */
  datatype Env = Env(
    root: string,
    appName: string,
    now: string,
    time: int,
    uniqid: string,
    sha256: string -> Sha256Hex,
    md5: string -> string)

  const IdPrefix := "PROJ_"

  /** Where the identifier is kept. */
  function IdFile(env: Env): string {
    env.root + "/.project_unique_id"
  }

  /** The string that is hashed: root, application name, `time()` and `uniqid()`. */
  function UniqueString(env: Env): string {
    env.root + env.appName + Php.IntToDecimal(env.time) + env.uniqid
  }

  /**
   * `'PROJ_' . strtoupper(substr(hash('sha256', $uniqueString), 0, 16))`:
   * always 21 characters, the prefix, then 16 upper-case hex digits that are
   * the first 16 digits of the hash.
   */
  function GenerateUniqueProjectId(env: Env): (id: string)
    ensures |id| == 21 && id[..5] == IdPrefix
    ensures forall i | 5 <= i < 21 :: IsUpperHex(id[i])
    ensures Php.ToLower(id[5..]) == env.sha256(UniqueString(env))[..16]
  {
    var hash := env.sha256(UniqueString(env));
    var digits := Php.ToUpper(hash[..16]);
    var id := IdPrefix + digits;
    assert id[5..] == digits;
    assert forall i | 0 <= i < 16 :: IsLowerHex(hash[i]);
    assert Php.ToLower(digits) == hash[..16];
    id
  }

  /** The stored identifier: the trimmed file, unless it is missing or trims to "" or "0". */
  function StoredId(env: Env, fs: Files): (r: Option<string>)
    ensures r.Some? <==> IdFile(env) in fs && !Php.IsEmpty(Php.Trim(fs[IdFile(env)]))
    ensures r.Some? ==> r.value == Php.Trim(fs[IdFile(env)])
  {
    var f := IdFile(env);
    if f in fs && !Php.IsEmpty(Php.Trim(fs[f])) then Some(Php.Trim(fs[f])) else None
  }

  /** The identifier the agent sends, and the files after it has been looked up. */
  datatype Resolved = Resolved(id: string, fs: Files)

  /** `getOrCreateUniqueProjectId`: reuse the stored identifier, or generate one and write it. */
  function GetOrCreateUniqueProjectId(env: Env, fs: Files): Resolved {
    match StoredId(env, fs)
    case Some(id) => Resolved(id, fs)
    case None =>
      var id := GenerateUniqueProjectId(env);
      Resolved(id, fs[IdFile(env) := id])
  }

  /**
   * An identifier file whose trimmed contents are not empty is returned as
   * trimmed and left alone; otherwise a new identifier is generated and
   * written, and nothing else changes.
   */
  lemma GetOrCreateCases(env: Env, fs: Files)
    ensures var r := GetOrCreateUniqueProjectId(env, fs);
      if IdFile(env) in fs && !Php.IsEmpty(Php.Trim(fs[IdFile(env)])) then
        r.id == Php.Trim(fs[IdFile(env)]) && r.fs == fs
      else
        r.id == GenerateUniqueProjectId(env) && r.fs == fs[IdFile(env) := r.id]
  {
    match StoredId(env, fs)
    case Some(id) =>
      assert id == Php.Trim(fs[IdFile(env)]);
    case None =>
  }

  /** The identifier found afterwards is always a non-blank file whose trimmed contents it is. */
  lemma GetOrCreateStores(env: Env, fs: Files)
    ensures var r := GetOrCreateUniqueProjectId(env, fs);
      IdFile(env) in r.fs && Php.Trim(r.fs[IdFile(env)]) == r.id && !Php.IsEmpty(r.id)
  {
    var r := GetOrCreateUniqueProjectId(env, fs);
    if StoredId(env, fs).None? {
      GeneratedIdIsTrimmed(env);
    }
  }

  /** A generated identifier survives `trim` and is not `empty`. */
  lemma GeneratedIdIsTrimmed(env: Env)
    ensures Php.Trim(GenerateUniqueProjectId(env)) == GenerateUniqueProjectId(env)
    ensures !Php.IsEmpty(GenerateUniqueProjectId(env))
  {
    var id := GenerateUniqueProjectId(env);
    assert id[0] == id[..5][0] == 'P';
    assert IsUpperHex(id[20]);
    assert !Php.IsBlank(id[0]) && !Php.IsBlank(id[20]);
    Php.TrimOfTrimmed(id);
    assert |id| == 21;
  }

  /**
   * Stability: once the identifier has been looked up, a later lookup under
   * the same root (whatever the clock, `uniqid()` or application name say
   * then) returns the same identifier and writes nothing.
   */
  lemma {:induction false} GetOrCreateStable(env: Env, later: Env, fs: Files)
    requires later.root == env.root
    ensures var r := GetOrCreateUniqueProjectId(env, fs);
      GetOrCreateUniqueProjectId(later, r.fs) == r
  {
    var r := GetOrCreateUniqueProjectId(env, fs);
    GetOrCreateStores(env, fs);
    assert IdFile(later) == IdFile(env);
    assert StoredId(later, r.fs) == Some(r.id);
  }
}
