/** Job identities as the daemon publishes them, and the checks readers make on them. */
module JobIdentity {

  datatype Identity = Identity(
    ip: string,
    runner: string,
    generation: string,
    repository: string,
    event: string,
    writeRef: string,
    readRefs: seq<string>,
    fork: bool,
    runID: int,
    jobID: string,
    expiresAt: int,
    unresolved: bool
  )

  const NoIdentity := Identity("", "", "", "", "", "", [], false, 0, "", 0, false)

  datatype Job = Job(runner: string, repository: string, event: string, runID: int, jobID: string)

  predicate HasPrefix(s: string, p: string) {
    p <= s
  }

  predicate HasSuffix(s: string, p: string) {
    |p| <= |s| && s[|s| - |p|..] == p
  }

  predicate OccursAt(s: string, p: string, i: int) {
    0 <= i <= |s| - |p| && s[i..i + |p|] == p
  }

  predicate Contains(s: string, p: string) {
    exists i | 0 <= i <= |s| :: OccursAt(s, p, i)
  }

  const RefForbidden: string := "\0\r\n \\~^:?*["

  predicate ValidRef(r: string) {
    && (HasPrefix(r, "refs/heads/") || HasPrefix(r, "refs/tags/") || HasPrefix(r, "refs/pull/"))
    && |r| <= 1024 && !HasSuffix(r, "/")
    && (forall i :: 0 <= i < |r| ==> r[i] !in RefForbidden)
    && !Contains(r, "..") && !Contains(r, "//") && !Contains(r, "@{")
  }

  predicate RepositoryChar(c: char) {
    'a' <= c <= 'z' || 'A' <= c <= 'Z' || '0' <= c <= '9' || c == '-' || c == '_' || c == '.'
  }

  predicate ValidName(s: string) {
    s != "" && s != "." && s != ".." && forall i :: 0 <= i < |s| ==> RepositoryChar(s[i])
  }

  /** The parts of s between occurrences of c. */
  function Split(s: string, c: char): (parts: seq<string>)
    ensures |parts| >= 1
  {
    if s == "" then [""]
    else
      var rest := Split(s[1..], c);
      if s[0] == c then [""] + rest else [[s[0]] + rest[0]] + rest[1..]
  }

  predicate ValidRepository(repo: string) {
    var p := Split(repo, '/');
    |p| == 2 && ValidName(p[0]) && ValidName(p[1])
  }

  function LowerChar(c: char): char {
    if 'A' <= c <= 'Z' then (c as int + 32) as char else c
  }

  function Lower(s: string): (t: string)
    ensures |t| == |s|
  {
    seq(|s|, i requires 0 <= i < |s| => LowerChar(s[i]))
  }

  /** A record that grants job rights; a pending one deliberately fails this. */
  predicate Valid(i: Identity, now: int) {
    && !i.unresolved
    && ValidRepository(i.repository) && i.runner != "" && i.generation != "" && i.jobID != "" && i.runID > 0
    && i.expiresAt > now
    && (i.writeRef != "" ==> ValidRef(i.writeRef))
    && 1 <= |i.readRefs| <= 3
    && (forall k :: 0 <= k < |i.readRefs| ==> ValidRef(i.readRefs[k]))
    && (i.writeRef != "" ==> i.readRefs[0] == i.writeRef)
  }

  /** A live lease whose job rights may still be granted. */
  predicate Pending(i: Identity, now: int) {
    i.generation != "" && !i.unresolved && i.expiresAt > now && i.writeRef == "" && i.readRefs == []
  }

  /** What a resolver promises of its answer: it is for the job asked about. */
  predicate AnswerFor(j: Job, i: Identity) {
    i.repository == Lower(j.repository) && i.event == j.event && i.runID == j.runID && i.jobID == j.jobID
  }

  predicate CanRead(i: Identity, r: string) {
    r != "" && r in i.readRefs
  }

  /** A record never both grants rights and waits for them; and whoever may write a ref may read it. */
  lemma RightsAreExclusive(i: Identity, now: int)
    ensures !(Valid(i, now) && Pending(i, now))
    ensures Valid(i, now) && i.writeRef != "" ==> CanRead(i, i.writeRef)
    ensures Valid(i, now) ==> forall r :: CanRead(i, r) ==> ValidRef(r)
  {
    if Valid(i, now) && i.writeRef != "" {
      assert i.readRefs[0] in i.readRefs;
    }
  }
}
