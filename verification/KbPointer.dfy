/** The values of the knowledge-index manifest: one Redis hash per namespace whose fields are
    knowledge-source ids and whose values are short strings.

    `Pointer` names the five things such a string can mean and `Render` is the string itself.
    The class `ManifestHash` runs the Lua scripts and the Python around them on the strings, with
    the string tests the code uses; its contracts say what each call does to the pointers, so the
    protocol in module KbIndex can be stated on pointers only. */
module KbPointer {

  predicate IsHex(c: char) {
    '0' <= c <= '9' || 'a' <= c <= 'f'
  }

  predicate IsUuid(s: string) {
    |s| == 32 && forall i :: 0 <= i < |s| ==> IsHex(s[i])
  }

  /** The value of `uuid.uuid4().hex`. */
  type Uuid = s: string | IsUuid(s) witness "00000000000000000000000000000000"

  /** A set of vectors of one source: those written before the manifest existed, or one upsert's. */
  datatype Generation = Legacy | Staged(version: Uuid)

  datatype Pointer =
    | Absent
    | Live(version: Uuid)
    | Failed(hidden: Generation)
    | Revoked(token: Uuid)
    | Deleted
  {
    /** The code's `value.startswith("!")`. */
    predicate IsMarker() {
      Failed? || Revoked? || Deleted?
    }
  }

  /** The pointer under which a generation is the published one. */
  function PointerTo(g: Generation): Pointer {
    match g
    case Legacy => Absent
    case Staged(v) => Live(v)
  }

  /** The generation that the holder of a pointer owns and may have to clean up, if any. */
  function Replaced(p: Pointer): (g: seq<Generation>) {
    match p
    case Absent => [Legacy]
    case Live(v) => [Staged(v)]
    case Failed(h) => [h]
    case Revoked(_) => []
    case Deleted => []
  }

  const DELETED := "!deleted"
  const FAILED_PREFIX := "!failed:"
  const REVOKED_PREFIX := "!revoked:"

  function Render(p: Pointer): string {
    match p
    case Absent => ""
    case Live(v) => v
    case Failed(h) => FAILED_PREFIX + (if h.Legacy? then "legacy" else h.version)
    case Revoked(t) => REVOKED_PREFIX + t
    case Deleted => DELETED
  }

  predicate StartsWith(s: string, prefix: string) {
    prefix <= s
  }

  function RemovePrefix(s: string, prefix: string): string {
    if StartsWith(s, prefix) then s[|prefix|..] else s
  }

  // ----- the string tests mean what the code takes them to mean

  lemma MarkerTest(p: Pointer)
    ensures StartsWith(Render(p), "!") <==> p.IsMarker()
    ensures Render(p) == "" <==> p.Absent?
    ensures Render(p) == DELETED <==> p.Deleted?
    ensures StartsWith(Render(p), FAILED_PREFIX) <==> p.Failed?
  {
    match p
    case Absent =>
    case Live(v) =>
      assert IsHex(v[0]);
    case Failed(h) =>
      assert Render(p)[..8] == FAILED_PREFIX;
      assert Render(p)[1] == 'f' && DELETED[1] == 'd';
    case Revoked(t) =>
      assert Render(p)[..9] == REVOKED_PREFIX;
      assert Render(p)[1] == 'r' && DELETED[1] == 'd' && FAILED_PREFIX[1] == 'f';
    case Deleted =>
      assert DELETED[1] == 'd' && FAILED_PREFIX[1] == 'f';
  }

  /** Two pointers with one string are one pointer: comparing strings compares pointers. */
  lemma RenderInjective(p: Pointer, q: Pointer)
    requires Render(p) == Render(q)
    ensures p == q
  {
    MarkerTest(p);
    MarkerTest(q);
    match p
    case Absent =>
    case Live(v) =>
      assert q.Live?;
    case Failed(h) =>
      assert RemovePrefix(Render(p), FAILED_PREFIX) == RemovePrefix(Render(q), FAILED_PREFIX);
      HiddenName(h);
      HiddenName(q.hidden);
    case Revoked(t) =>
      assert q.Revoked?;
      assert Render(p)[9..] == t && Render(q)[9..] == q.token;
    case Deleted =>
  }

  /** A failed marker holds the plain name of one generation, so its payload never starts with "!":
      markers do not nest. Stripping the prefix gives the generation back, with "legacy" standing
      for the vectors without a version. */
  lemma HiddenName(h: Generation)
    ensures var name := RemovePrefix(Render(Failed(h)), FAILED_PREFIX);
            && name != "" && !StartsWith(name, "!")
            && (name == "legacy" <==> h.Legacy?)
            && (if name == "legacy" then "" else name) == Render(PointerTo(h))
  {
    assert StartsWith(Render(Failed(h)), FAILED_PREFIX) by { MarkerTest(Failed(h)); }
    var name := RemovePrefix(Render(Failed(h)), FAILED_PREFIX);
    assert name == if h.Legacy? then "legacy" else h.version;
    if h.Staged? {
      assert IsHex(name[0]) && |"legacy"| != 32;
    } else {
      assert name[0] == 'l';
    }
  }

  // ----- what the scripts do, on pointers

  type Manifest = map<string, Pointer>

  function At(m: Manifest, kb: string): Pointer {
    if kb in m then m[kb] else Absent
  }

  /** The compare-and-swap script: it refuses a deleted source and any value but `expected`. */
  predicate CasAccepts(m: Manifest, kb: string, expected: Pointer) {
    At(m, kb) == expected && expected != Deleted
  }

  function Cas(m: Manifest, kb: string, next: Pointer, expected: Pointer): Manifest {
    if CasAccepts(m, kb, expected) then m[kb := next] else m
  }

  /** The deletion script: it never overwrites a permanent deletion. */
  function Tombstone(m: Manifest, kb: string, marker: Pointer): Manifest {
    if At(m, kb) == Deleted then m else m[kb := marker]
  }

  datatype Result<T> = Ok(value: T) | Raised

  class ManifestHash {
    /** The Redis hash. */
    var fields: map<string, string>
    /** What its strings mean. */
    ghost var pointers: Manifest

    ghost predicate Valid()
      reads this
    {
      && fields.Keys == pointers.Keys
      && forall kb :: kb in fields ==> pointers[kb] != Absent && fields[kb] == Render(pointers[kb])
    }

    constructor ()
      ensures Valid() && pointers == map[]
    {
      fields := map[];
      pointers := map[];
    }

    /** `hget(key, kb) or ""` */
    method Get(kb: string) returns (value: string)
      requires Valid()
      ensures value == Render(At(pointers, kb))
    {
      value := if kb in fields then fields[kb] else "";
    }

    method AssertNotDeleted(kb: string) returns (r: Result<string>)
      requires Valid()
      ensures r == if At(pointers, kb) == Deleted then Raised else Ok(Render(At(pointers, kb)))
    {
      var previous := Get(kb);
      MarkerTest(At(pointers, kb));
      if previous == DELETED {
        return Raised;
      }
      return Ok(previous);
    }

    /** The script behind `publish`, run with `value` for ARGV[2]. */
    method EvalPublish(kb: string, value: string, expected: string, ghost next: Pointer, ghost want: Pointer)
      returns (accepted: bool, previous: string)
      requires Valid()
      requires value == Render(next) && expected == Render(want) && next != Absent
      modifies this
      ensures Valid()
      ensures pointers == Cas(old(pointers), kb, next, want)
      ensures accepted <==> CasAccepts(old(pointers), kb, want)
      ensures previous == Render(At(old(pointers), kb))
    {
      previous := Get(kb);
      MarkerTest(At(pointers, kb));
      if previous == DELETED || previous != expected {
        return false, previous;
      }
      RenderInjective(At(pointers, kb), want);
      fields := fields[kb := value];
      pointers := pointers[kb := next];
      accepted := true;
    }

    /** `delete`: a source deletion is permanent, a reassignment leaves a fresh revocation token. */
    method Delete(kb: string, permanent: bool, token: Uuid) returns (previous: string)
      requires Valid()
      modifies this
      ensures Valid()
      ensures pointers == Tombstone(old(pointers), kb, if permanent then Deleted else Revoked(token))
      ensures previous == Render(At(old(pointers), kb))
    {
      previous := Get(kb);
      MarkerTest(At(pointers, kb));
      if previous != DELETED {
        fields := fields[kb := if permanent then DELETED else REVOKED_PREFIX + token];
        pointers := pointers[kb := if permanent then Deleted else Revoked(token)];
      }
    }

    /** `revoke_failed`: it writes only over the generation that the failed attempt read. */
    method RevokeFailed(kb: string, expected: string, ghost want: Pointer) returns (hidden: bool)
      requires Valid() && expected == Render(want)
      modifies this
      ensures Valid()
      ensures want.IsMarker() ==> pointers == old(pointers)
      ensures want.IsMarker() ==> (hidden <==> want.Failed? && At(pointers, kb) == want)
      ensures !want.IsMarker() ==> pointers == Cas(old(pointers), kb, Failed(Replaced(want)[0]), want)
      ensures !want.IsMarker() ==> (hidden <==> At(old(pointers), kb) == want)
    {
      MarkerTest(want);
      if StartsWith(expected, "!") {
        var current := Get(kb);
        hidden := StartsWith(expected, FAILED_PREFIX) && current == expected;
        if current == expected {
          RenderInjective(At(pointers, kb), want);
        }
      } else {
        var marker := FAILED_PREFIX + (if expected == "" then "legacy" else expected);
        var previous;
        hidden, previous := EvalPublish(kb, marker, expected, Failed(Replaced(want)[0]), want);
      }
    }
  }
}
