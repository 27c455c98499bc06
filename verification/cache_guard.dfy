/**
 * The artifact cache guard.  Before paying for a generation call, a stage
 * looks for an earlier result at `base + ext` for each extension in order:
 * a file larger than 1024 bytes is reused and ends the scan; a smaller one is
 * treated as a broken write, deleted, and the scan goes on.  A failed delete
 * is tolerated.  The filesystem is a map from path to size in bytes.
 */
module CacheGuard {
  import opened Wrappers

  /** Files of at most this many bytes are considered corrupt. */
  const MinValidSize: nat := 1024

  const ImageExts: seq<string> := [".png", ".jpg", ".jpeg"]
  const AudioExts: seq<string> := [".wav", ".mp3"]

  /** Path to size in bytes. */
  type Files = map<string, nat>

  /** A file that can be reused. */
  predicate Valid(files: Files, p: string) {
    p in files && files[p] > MinValidSize
  }

  /** `os.remove(p)` inside `try`: paths in `locked` cannot be removed and stay. */
  function Remove(files: Files, locked: set<string>, p: string): (r: Files)
    ensures r.Keys == if p in locked then files.Keys else files.Keys - {p}
    ensures forall q :: q in r ==> r[q] == files[q]
  {
    if p in locked then files else files - {p}
  }

  /** The outcome of one scan: the reused file, if any, and the files left afterwards. */
  datatype Scan = Scan(hit: Option<string>, files: Files)

  /** The candidate `base + exts[k]` is the first one that can be reused. */
  predicate FirstValid(files: Files, base: string, exts: seq<string>, k: nat) {
    && k < |exts|
    && Valid(files, base + exts[k])
    && forall j :: 0 <= j < k ==> !Valid(files, base + exts[j])
  }

  /** `p` is one of the scanned candidates. */
  predicate Candidate(p: string, base: string, exts: seq<string>) {
    exists j :: 0 <= j < |exts| && p == base + exts[j]
  }

  /**
   * What the scan did before reaching candidate `k`: it removed only
   * candidates listed before `k`, and it removed every one of them that was
   * on disk and not locked.
   */
  predicate ClearedBefore(files: Files, locked: set<string>, base: string, exts: seq<string>, k: nat, after: Files)
    requires k <= |exts|
  {
    && (forall p :: p in files && p !in after ==> exists j :: 0 <= j < k && p == base + exts[j])
    && (forall j :: 0 <= j < k && base + exts[j] in files && base + exts[j] !in locked ==> base + exts[j] !in after)
  }

  /**
   * Composing two steps of a loop: a file the whole run removes was small when
   * the run began, unless the run itself wrote it.
   */
  lemma RemovalsStaySmall(files: Files, f: Files, g: Files, mine: set<string>, w: set<string>)
    requires forall p :: p in files && p !in f ==> files[p] <= MinValidSize
    requires forall p :: p in f && (p !in files || f[p] != files[p]) ==> p in mine
    requires forall p :: p in f && p !in g ==> f[p] <= MinValidSize || p in w
    ensures forall p :: p in files && p !in g ==> files[p] <= MinValidSize || p in mine + w
  {
  }

  /**
   * The scan over `exts`.  Its contract: it reuses exactly the first valid
   * candidate; it only ever removes candidates of at most 1024 bytes that are
   * not locked; on a hit it removed exactly the removable candidates listed
   * before the hit and never looked past it; every other file keeps its size;
   * after a miss, no removable small candidate remains.
   */
  function Guard(files: Files, locked: set<string>, base: string, exts: seq<string>): (s: Scan)
    ensures s.hit.Some? <==> exists k: nat :: FirstValid(files, base, exts, k)
    ensures forall k: nat :: FirstValid(files, base, exts, k) ==> s.hit == Some(base + exts[k])
    ensures s.files.Keys <= files.Keys
    ensures forall p :: p in s.files ==> s.files[p] == files[p]
    ensures forall p :: p in files && p !in s.files ==>
      Candidate(p, base, exts) && files[p] <= MinValidSize && p !in locked
    ensures forall k: nat :: FirstValid(files, base, exts, k) ==> ClearedBefore(files, locked, base, exts, k, s.files)
    ensures s.hit.Some? ==> s.hit.value in s.files
    ensures s.hit.None? ==> forall j :: 0 <= j < |exts| && base + exts[j] in s.files ==>
      base + exts[j] in locked
    decreases |exts|
  {
    if exts == [] then
      Scan(None, files)
    else
      var c := base + exts[0];
      if Valid(files, c) then
        assert FirstValid(files, base, exts, 0);
        Scan(Some(c), files)
      else
        var rest := Guard(if c in files then Remove(files, locked, c) else files, locked, base, exts[1..]);
        GuardStep(files, locked, base, exts, rest);
        ClearedStep(files, locked, base, exts, rest);
        rest
  }

  /** Removing an invalid first candidate moves the first valid one down by one place in the rest of the list. */
  lemma FirstValidShift(files: Files, locked: set<string>, base: string, exts: seq<string>)
    requires exts != [] && !Valid(files, base + exts[0])
    ensures
      var c := base + exts[0];
      var next := if c in files then Remove(files, locked, c) else files;
      && (forall k: nat :: FirstValid(files, base, exts, k) ==> k > 0 && FirstValid(next, base, exts[1..], k - 1))
      && (forall k: nat :: FirstValid(next, base, exts[1..], k) ==> FirstValid(files, base, exts, k + 1))
  {
    var c := base + exts[0];
    var next := if c in files then Remove(files, locked, c) else files;
    forall q
      ensures Valid(next, q) <==> Valid(files, q)
    {
      if q == c && q in files && q !in locked {
        assert !Valid(next, q);
      }
    }
    forall k: nat | FirstValid(files, base, exts, k)
      ensures k > 0 && FirstValid(next, base, exts[1..], k - 1)
    {
    }
    forall k: nat | FirstValid(next, base, exts[1..], k)
      ensures FirstValid(files, base, exts, k + 1)
    {
      forall j | 0 <= j < k + 1
        ensures !Valid(files, base + exts[j])
      {
        if j > 0 { assert exts[j] == exts[1..][j - 1]; }
      }
    }
  }

  /** How the rest's account of what it cleared before its hit carries over to the whole list. */
  lemma ClearedStep(files: Files, locked: set<string>, base: string, exts: seq<string>, rest: Scan)
    requires exts != [] && !Valid(files, base + exts[0])
    requires
      var c := base + exts[0];
      var next := if c in files then Remove(files, locked, c) else files;
      && rest.files.Keys <= next.Keys
      && forall k: nat :: FirstValid(next, base, exts[1..], k) ==> ClearedBefore(next, locked, base, exts[1..], k, rest.files)
    ensures forall k: nat :: FirstValid(files, base, exts, k) ==> ClearedBefore(files, locked, base, exts, k, rest.files)
  {
    var c := base + exts[0];
    var next := if c in files then Remove(files, locked, c) else files;
    FirstValidShift(files, locked, base, exts);
    forall k: nat | FirstValid(files, base, exts, k)
      ensures ClearedBefore(files, locked, base, exts, k, rest.files)
    {
      assert ClearedBefore(next, locked, base, exts[1..], k - 1, rest.files);
      forall p | p in files && p !in rest.files
        ensures exists j :: 0 <= j < k && p == base + exts[j]
      {
        if p in next {
          var j :| 0 <= j < k - 1 && p == base + exts[1..][j];
          assert p == base + exts[j + 1];
        } else {
          assert p == base + exts[0];
        }
      }
      forall j | 0 <= j < k && base + exts[j] in files && base + exts[j] !in locked
        ensures base + exts[j] !in rest.files
      {
        if j > 0 && base + exts[j] in next {
          assert exts[j] == exts[1..][j - 1];
        }
      }
    }
  }

  /** How the answer for the remaining extensions carries over to the whole list. */
  lemma GuardStep(files: Files, locked: set<string>, base: string, exts: seq<string>, rest: Scan)
    requires exts != [] && !Valid(files, base + exts[0])
    requires
      var c := base + exts[0];
      var next := if c in files then Remove(files, locked, c) else files;
      && (rest.hit.Some? <==> exists k: nat :: FirstValid(next, base, exts[1..], k))
      && (forall k: nat :: FirstValid(next, base, exts[1..], k) ==> rest.hit == Some(base + exts[1..][k]))
      && rest.files.Keys <= next.Keys
      && (forall p :: p in rest.files ==> rest.files[p] == next[p])
      && (forall p :: p in next && p !in rest.files ==>
            Candidate(p, base, exts[1..]) && next[p] <= MinValidSize && p !in locked)
      && (rest.hit.None? ==> forall j :: 0 <= j < |exts[1..]| && base + exts[1..][j] in rest.files ==>
            base + exts[1..][j] in locked)
    ensures rest.hit.Some? <==> exists k: nat :: FirstValid(files, base, exts, k)
    ensures forall k: nat :: FirstValid(files, base, exts, k) ==> rest.hit == Some(base + exts[k])
    ensures rest.files.Keys <= files.Keys
    ensures forall p :: p in rest.files ==> rest.files[p] == files[p]
    ensures forall p :: p in files && p !in rest.files ==>
      Candidate(p, base, exts) && files[p] <= MinValidSize && p !in locked
    ensures rest.hit.None? ==> forall j :: 0 <= j < |exts| && base + exts[j] in rest.files ==>
      base + exts[j] in locked
  {
    var c := base + exts[0];
    var next := if c in files then Remove(files, locked, c) else files;
    FirstValidShift(files, locked, base, exts);
    forall p | p in files && p !in rest.files
      ensures Candidate(p, base, exts) && files[p] <= MinValidSize && p !in locked
    {
      if p in next {
        var j :| 0 <= j < |exts[1..]| && p == base + exts[1..][j];
        assert p == base + exts[j + 1];
      } else {
        assert p == c;
      }
    }
    if rest.hit.None? {
      forall j | 0 <= j < |exts| && base + exts[j] in rest.files
        ensures base + exts[j] in locked
      {
        if j > 0 {
          assert exts[j] == exts[1..][j - 1];
        }
      }
    }
  }

  /** A hit ends the scan before anything is removed. */
  lemma HitRemovesNothing(files: Files, locked: set<string>, base: string, exts: seq<string>)
    requires |exts| > 0 && Valid(files, base + exts[0])
    ensures Guard(files, locked, base, exts) == Scan(Some(base + exts[0]), files)
  {
  }

  /**
   * Running the guard again on what it left behind gives the same answer and
   * removes nothing more: the cache is idempotent.
   */
  lemma {:induction false} GuardIdempotent(files: Files, locked: set<string>, base: string, exts: seq<string>)
    ensures
      var first := Guard(files, locked, base, exts);
      Guard(first.files, locked, base, exts) == first
    decreases |exts|
  {
    var first := Guard(files, locked, base, exts);
    if exts != [] {
      var c := base + exts[0];
      if !Valid(files, c) {
        var next := if c in files then Remove(files, locked, c) else files;
        GuardIdempotent(next, locked, base, exts[1..]);
        // `first.files` still holds `c` only if it is locked and small
        assert !Valid(first.files, c);
        var next2 := if c in first.files then Remove(first.files, locked, c) else first.files;
        assert next2 == first.files;
      }
    }
  }

  /** A file of exactly 1024 bytes is not reused: it is removed, or kept only if locked. */
  lemma BoundaryIsCorrupt(files: Files, locked: set<string>, base: string, exts: seq<string>)
    requires |exts| == 1
    requires base + exts[0] in files && files[base + exts[0]] == MinValidSize
    ensures Guard(files, locked, base, exts).hit == None
    ensures (base + exts[0] in Guard(files, locked, base, exts).files) <==> base + exts[0] in locked
  {
  }

  /** The first candidate on disk is `base + exts[k]`, and it can be reused. */
  predicate CleanHit(files: Files, base: string, exts: seq<string>, k: nat) {
    && k < |exts|
    && Valid(files, base + exts[k])
    && forall j :: 0 <= j < k ==> base + exts[j] !in files
  }

  /** Some candidate is a clean hit. */
  predicate HitsCleanly(files: Files, base: string, exts: seq<string>) {
    exists k: nat | k < |exts| :: CleanHit(files, base, exts, k)
  }

  /** When the first candidate on disk is valid, the scan reuses it and removes nothing. */
  lemma {:induction false} CleanHitScan(files: Files, locked: set<string>, base: string, exts: seq<string>, k: nat)
    requires CleanHit(files, base, exts, k)
    ensures Guard(files, locked, base, exts) == Scan(Some(base + exts[k]), files)
    decreases k
  {
    if k > 0 {
      assert base + exts[0] !in files;
      forall j | 0 <= j < k - 1
        ensures base + exts[1..][j] !in files
      {
        assert exts[1..][j] == exts[j + 1];
      }
      assert exts[1..][k - 1] == exts[k];
      CleanHitScan(files, locked, base, exts[1..], k - 1);
    }
  }

  /** With no candidate on disk the scan misses and touches nothing. */
  lemma NoCandidateMisses(files: Files, locked: set<string>, base: string, exts: seq<string>)
    requires forall k :: 0 <= k < |exts| ==> base + exts[k] !in files
    ensures Guard(files, locked, base, exts) == Scan(None, files)
  {
    var scan := Guard(files, locked, base, exts);
    assert forall k: nat :: !FirstValid(files, base, exts, k);
    assert scan.files == files;
  }
}
