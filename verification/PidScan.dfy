/**
 Mapping pod UIDs to processes: runtime hints that check out, and for the rest a single early-exit
 pass over `/proc`.
 */
module PidScan {
  import opened Common
  import Text

  type Uid = string

  /**
   `/proc` at one moment: the directory's names in order (None for names that are not PIDs), the
   readable cgroup files, and the PIDs whose `net/snmp` is a file.
   */
  datatype Proc = Proc(names: seq<Option<nat>>, cgroups: map<nat, string>, snmp: set<nat>)

  // --------------------------------------------------------------- spellings

  /** `str::replace` for a single character. */
  function Replace(s: string, c: char, replacement: string): string {
    if s == "" then "" else (if s[0] == c then replacement else [s[0]]) + Replace(s[1..], c, replacement)
  }

  function Spellings(uid: Uid): (r: seq<string>)
    ensures |r| == 4
  {
    [uid, Replace(uid, '-', "_"), Replace(uid, '-', "\\x2d"), Replace(uid, '-', "")]
  }

  predicate Mentions(cgroup: string, uid: Uid) {
    exists k :: 0 <= k < 4 && Text.Contains(cgroup, Spellings(uid)[k])
  }

  predicate CgroupMatches(proc: Proc, pid: nat, uid: Uid) {
    pid in proc.cgroups && Mentions(proc.cgroups[pid], uid)
  }

  /** A process that can stand for the pod. */
  predicate Represents(proc: Proc, pid: nat, uid: Uid) {
    CgroupMatches(proc, pid, uid) && pid in proc.snmp
  }

  /** Replacing a character is gluing the pieces between its occurrences with the replacement. */
  lemma {:induction false} ReplaceIsGlue(s: string, c: char, replacement: string)
    ensures Replace(s, c, replacement) == Text.Glue(Text.Split(s, c), replacement)
  {
    if s != "" {
      var rest := Text.Split(s[1..], c);
      ReplaceIsGlue(s[1..], c, replacement);
      if s[0] == c {
        Text.GlueMore("", rest, replacement);
      } else {
        Text.GlueLonger(s[0], rest, replacement);
      }
    }
  }

  /** The UID's dash-separated parts occur in the text with that separator between them. */
  predicate MentionedWith(cgroup: string, uid: Uid, separator: string) {
    Text.Contains(cgroup, Text.Glue(Text.Split(uid, '-'), separator))
  }

  /** What makes a process a pod's, spelled out: a readable cgroup that mentions the UID in one of four ways, and an snmp file. */
  predicate Stands(proc: Proc, pid: nat, uid: Uid) {
    && pid in proc.cgroups && pid in proc.snmp
    && (|| MentionedWith(proc.cgroups[pid], uid, "-")
        || MentionedWith(proc.cgroups[pid], uid, "_")
        || MentionedWith(proc.cgroups[pid], uid, "\\x2d")
        || MentionedWith(proc.cgroups[pid], uid, ""))
  }

  /** The four spellings are the UID with its dashes kept, underscored, escaped and dropped. */
  lemma RepresentsExactly(proc: Proc, pid: nat, uid: Uid)
    ensures Represents(proc, pid, uid) <==> Stands(proc, pid, uid)
  {
    Text.SplitGluesBack(uid, '-');
    ReplaceIsGlue(uid, '-', "_");
    ReplaceIsGlue(uid, '-', "\\x2d");
    ReplaceIsGlue(uid, '-', "");
    var spellings := Spellings(uid);
    assert spellings[0] == uid && spellings[1] == Replace(uid, '-', "_");
    assert spellings[2] == Replace(uid, '-', "\\x2d") && spellings[3] == Replace(uid, '-', "");
  }

  predicate OnlyDashes(uid: Uid) {
    forall i :: 0 <= i < |uid| ==> uid[i] == '-'
  }

  /** A replaced text vanishes only if every character was replaced, and by nothing. */
  lemma {:induction false} ReplacedIsEmpty(uid: Uid, replacement: string)
    ensures Replace(uid, '-', replacement) == "" <==> uid == "" || (replacement == "" && OnlyDashes(uid))
  {
    if uid != "" {
      ReplacedIsEmpty(uid[1..], replacement);
      assert OnlyDashes(uid) <==> uid[0] == '-' && OnlyDashes(uid[1..]) by {
        assert forall i :: 0 < i < |uid| ==> uid[i] == uid[1..][i - 1];
      }
    }
  }

  lemma EmptyIsInEmpty(part: string)
    ensures Text.Contains("", part) <==> part == ""
  {
    if part == "" {
      assert Text.OccursAt("", part, 0);
    }
  }

  /**
   Which UIDs match every readable cgroup: exactly the dashes-only ones, the empty one included, because
   dropping the dashes leaves an empty spelling. Any other UID already fails on an empty cgroup.
   */
  lemma DashesOnlyMatchEverything(uid: Uid)
    ensures (forall cgroup :: Mentions(cgroup, uid)) <==> OnlyDashes(uid)
  {
    ReplacedIsEmpty(uid, "_");
    ReplacedIsEmpty(uid, "\\x2d");
    ReplacedIsEmpty(uid, "");
    forall k | 0 <= k < 4
      ensures Text.Contains("", Spellings(uid)[k]) <==> Spellings(uid)[k] == ""
    {
      EmptyIsInEmpty(Spellings(uid)[k]);
    }
    assert Mentions("", uid) ==> OnlyDashes(uid);
    if OnlyDashes(uid) {
      forall cgroup: string
        ensures Mentions(cgroup, uid)
      {
        assert Text.OccursAt(cgroup, Spellings(uid)[3], 0);
        assert Text.Contains(cgroup, Spellings(uid)[3]);
      }
    }
  }

  // --------------------------------------------------------- the simple form

  /** The first representative among the first `n` directory entries. */
  function FirstAmong(proc: Proc, uid: Uid, n: nat): Option<nat>
    requires n <= |proc.names|
  {
    if n == 0 then None
    else
      var before := FirstAmong(proc, uid, n - 1);
      if before.Some? then before
      else if proc.names[n - 1].Some? && Represents(proc, proc.names[n - 1].value, uid) then proc.names[n - 1]
      else None
  }

  function First(proc: Proc, uid: Uid): Option<nat> {
    FirstAmong(proc, uid, |proc.names|)
  }

  predicate RepresentsAt(proc: Proc, uid: Uid, k: nat)
    requires k < |proc.names|
  {
    proc.names[k].Some? && Represents(proc, proc.names[k].value, uid)
  }

  /** What "first" means: the entry represents the UID and no earlier entry does. */
  lemma {:induction false} FirstIsFirst(proc: Proc, uid: Uid, n: nat)
    requires n <= |proc.names|
    ensures FirstAmong(proc, uid, n).None? <==> forall k :: 0 <= k < n ==> !RepresentsAt(proc, uid, k)
    ensures FirstAmong(proc, uid, n).Some? ==>
              exists k :: 0 <= k < n && RepresentsAt(proc, uid, k) && proc.names[k] == FirstAmong(proc, uid, n)
                          && forall j :: 0 <= j < k ==> !RepresentsAt(proc, uid, j)
  {
    if n > 0 {
      FirstIsFirst(proc, uid, n - 1);
      if FirstAmong(proc, uid, n - 1).None? && RepresentsAt(proc, uid, n - 1) {
        assert proc.names[n - 1] == FirstAmong(proc, uid, n);
      }
    }
  }

  lemma {:induction false} FirstSticks(proc: Proc, uid: Uid, n: nat, m: nat)
    requires n <= m <= |proc.names| && FirstAmong(proc, uid, n).Some?
    ensures FirstAmong(proc, uid, m) == FirstAmong(proc, uid, n)
    decreases m
  {
    if n < m {
      FirstSticks(proc, uid, n, m - 1);
    }
  }

  // ---------------------------------------------------------- the fast form

  function Missing(found: seq<Option<nat>>): nat {
    if found == [] then 0 else Missing(found[..|found| - 1]) + (if found[|found| - 1].None? then 1 else 0)
  }

  lemma {:induction false} MissingUpdate(found: seq<Option<nat>>, i: nat, pid: nat)
    requires i < |found| && found[i].None?
    ensures Missing(found[i := Some(pid)]) + 1 == Missing(found)
  {
    var n := |found| - 1;
    var after := found[i := Some(pid)];
    if i == n {
      assert after[..n] == found[..n];
    } else {
      assert after[..n] == found[..n][i := Some(pid)];
      MissingUpdate(found[..n], i, pid);
    }
  }

  lemma {:induction false} NoneMissing(found: seq<Option<nat>>)
    requires Missing(found) == 0
    ensures forall i :: 0 <= i < |found| ==> found[i].Some?
  {
    if found != [] {
      NoneMissing(found[..|found| - 1]);
    }
  }

  lemma {:induction false} AllMissing(n: nat)
    ensures Missing(seq(n, _ => None)) == n
  {
    if n > 0 {
      var none: seq<Option<nat>> := seq(n, _ => None);
      var fewer: seq<Option<nat>> := seq(n - 1, _ => None);
      assert none[..n - 1] == fewer;
      AllMissing(n - 1);
    }
  }

  /** The pairs of the UIDs that have a representative, in UID order. */
  function Pairs(proc: Proc, uids: seq<Uid>): seq<(Uid, nat)> {
    if uids == [] then []
    else
      var n := |uids| - 1;
      var before := Pairs(proc, uids[..n]);
      match First(proc, uids[n])
      case None => before
      case Some(pid) => before + [(uids[n], pid)]
  }

  /** The pass may stop at the end or as soon as nothing is missing: every answer is already the first. */
  lemma StoppingEarlyIsSafe(proc: Proc, uids: seq<Uid>, found: seq<Option<nat>>, k: nat)
    requires k <= |proc.names| && |found| == |uids|
    requires forall i :: 0 <= i < |uids| ==> found[i] == FirstAmong(proc, uids[i], k)
    requires k == |proc.names| || Missing(found) == 0
    ensures forall i :: 0 <= i < |uids| ==> found[i] == First(proc, uids[i])
  {
    forall i | 0 <= i < |uids|
      ensures found[i] == First(proc, uids[i])
    {
      if Missing(found) == 0 {
        NoneMissing(found);
        FirstSticks(proc, uids[i], k, |proc.names|);
      }
    }
  }

  /** `scan_proc_for_uids`: one pass, stopping as soon as nothing is missing. */
  method ScanProcForUids(proc: Proc, uids: seq<Uid>) returns (pairs: seq<(Uid, nat)>)
    ensures pairs == Pairs(proc, uids)
  {
    var found: seq<Option<nat>> := seq(|uids|, _ => None);
    var remaining := |uids|;
    AllMissing(|uids|);
    var k := 0;
    while k < |proc.names| && remaining != 0
      invariant k <= |proc.names| && |found| == |uids| && remaining == Missing(found)
      invariant forall i :: 0 <= i < |uids| ==> found[i] == FirstAmong(proc, uids[i], k)
    {
      if proc.names[k].Some? && proc.names[k].value in proc.cgroups {
        found, remaining := VisitProcess(proc, uids, k, found, remaining);
      }
      k := k + 1;
    }
    StoppingEarlyIsSafe(proc, uids, found, k);
    pairs := FoundPairs(proc, uids, found);
  }

  /** The UIDs that were found, with their PIDs. */
  method FoundPairs(proc: Proc, uids: seq<Uid>, found: seq<Option<nat>>) returns (pairs: seq<(Uid, nat)>)
    requires |found| == |uids| && forall i :: 0 <= i < |uids| ==> found[i] == First(proc, uids[i])
    ensures pairs == Pairs(proc, uids)
  {
    pairs := [];
    for i := 0 to |uids|
      invariant pairs == Pairs(proc, uids[..i])
    {
      assert uids[..i + 1][..i] == uids[..i];
      if found[i].Some? {
        pairs := pairs + [(uids[i], found[i].value)];
      }
    }
    assert uids[..|uids|] == uids;
  }

  /** The body of the directory loop, for an entry that is a PID with a readable cgroup. */
  method VisitProcess(proc: Proc, uids: seq<Uid>, k: nat, before: seq<Option<nat>>, missing: nat)
    returns (found: seq<Option<nat>>, remaining: nat)
    requires k < |proc.names| && proc.names[k].Some? && proc.names[k].value in proc.cgroups
    requires |before| == |uids| && missing == Missing(before)
    requires forall i :: 0 <= i < |uids| ==> before[i] == FirstAmong(proc, uids[i], k)
    ensures |found| == |uids| && remaining == Missing(found)
    ensures forall i :: 0 <= i < |uids| ==> found[i] == FirstAmong(proc, uids[i], k + 1)
  {
    found, remaining := before, missing;
    var pid := proc.names[k].value;
    var cgroup := proc.cgroups[pid];
    for index := 0 to |uids|
      invariant |found| == |uids| && remaining == Missing(found)
      invariant forall i :: 0 <= i < |uids| ==> found[i] == FirstAmong(proc, uids[i], if i < index then k + 1 else k)
    {
      if found[index].None? && Mentions(cgroup, uids[index]) && pid in proc.snmp {
        MissingUpdate(found, index, pid);
        found := found[index := Some(pid)];
        remaining := remaining - 1;
      }
    }
  }

  // -------------------------------------------------------------- resolution

  predicate HintHolds(proc: Proc, uid: Uid, hint: Option<nat>) {
    hint.Some? && Represents(proc, hint.value, uid)
  }

  function PidFor(proc: Proc, uid: Uid, hint: Option<nat>): Option<nat> {
    if HintHolds(proc, uid, hint) then hint else First(proc, uid)
  }

  function Resolved(proc: Proc, hints: map<Uid, Option<nat>>): map<Uid, nat> {
    map uid | uid in hints && PidFor(proc, uid, hints[uid]).Some? :: PidFor(proc, uid, hints[uid]).value
  }

  /** The directory entry names a process that can stand for the pod. */
  predicate StandsAt(proc: Proc, uid: Uid, k: nat)
    requires k < |proc.names|
  {
    proc.names[k].Some? && Stands(proc, proc.names[k].value, uid)
  }

  /**
   Only requested UIDs are answered: with the hint if that process can stand for the pod, else with the first
   directory entry that can, and not at all exactly if there is none.
   */
  lemma ResolvedExactly(proc: Proc, hints: map<Uid, Option<nat>>, uid: Uid) returns (k: nat)
    ensures uid !in hints ==> uid !in Resolved(proc, hints)
    ensures uid in hints && hints[uid].Some? && Stands(proc, hints[uid].value, uid) ==>
              uid in Resolved(proc, hints) && Resolved(proc, hints)[uid] == hints[uid].value
    ensures uid in hints && !(hints[uid].Some? && Stands(proc, hints[uid].value, uid)) ==>
              if uid in Resolved(proc, hints)
              then k < |proc.names| && StandsAt(proc, uid, k) && proc.names[k].value == Resolved(proc, hints)[uid]
                   && forall j :: 0 <= j < k ==> !StandsAt(proc, uid, j)
              else forall j :: 0 <= j < |proc.names| ==> !StandsAt(proc, uid, j)
  {
    k := 0;
    FirstIsFirst(proc, uid, |proc.names|);
    forall j | 0 <= j < |proc.names|
      ensures StandsAt(proc, uid, j) <==> RepresentsAt(proc, uid, j)
    {
      if proc.names[j].Some? {
        RepresentsExactly(proc, proc.names[j].value, uid);
      }
    }
    if uid in hints && hints[uid].Some? {
      RepresentsExactly(proc, hints[uid].value, uid);
    }
    if First(proc, uid).Some? {
      k :| 0 <= k < |proc.names| && RepresentsAt(proc, uid, k) && proc.names[k] == First(proc, uid)
           && forall j :: 0 <= j < k ==> !RepresentsAt(proc, uid, j);
    }
  }

  lemma {:induction false} PairsAsMap(proc: Proc, uids: seq<Uid>, uid: Uid, pid: nat)
    ensures (uid, pid) in Pairs(proc, uids) <==> uid in uids && First(proc, uid) == Some(pid)
  {
    if uids != [] {
      var n := |uids| - 1;
      PairsAsMap(proc, uids[..n], uid, pid);
      assert uid in uids <==> uid in uids[..n] || uid == uids[n];
    }
  }

  function Scanned(proc: Proc, uids: seq<Uid>): map<Uid, nat> {
    map uid | uid in uids && First(proc, uid).Some? :: First(proc, uid).value
  }

  /** The scan's pairs inserted into a map. */
  method ScanIntoMap(proc: Proc, uids: seq<Uid>) returns (scanned: map<Uid, nat>)
    ensures scanned == Scanned(proc, uids)
  {
    var pairs := ScanProcForUids(proc, uids);
    scanned := map[];
    for i := 0 to |pairs|
      invariant forall uid :: uid in scanned ==> uid in Scanned(proc, uids) && scanned[uid] == Scanned(proc, uids)[uid]
      invariant forall j :: 0 <= j < i ==> pairs[j].0 in scanned
    {
      var (uid, pid) := pairs[i];
      assert (uid, pid) in pairs;
      PairsAsMap(proc, uids, uid, pid);
      scanned := scanned[uid := pid];
    }
    forall uid | uid in Scanned(proc, uids)
      ensures uid in scanned
    {
      PairsAsMap(proc, uids, uid, First(proc, uid).value);
      var j :| 0 <= j < |pairs| && pairs[j] == (uid, First(proc, uid).value);
      assert pairs[j].0 in scanned;
    }
  }

  /** `resolve_pids`; hash map iteration order is arbitrary. */
  method ResolvePids(proc: Proc, hints: map<Uid, Option<nat>>) returns (resolved: map<Uid, nat>)
    ensures resolved == Resolved(proc, hints)
  {
    resolved := map[];
    var needScan := [];
    var todo := hints.Keys;
    while todo != {}
      invariant todo <= hints.Keys
      invariant forall uid :: uid in resolved <==> uid in hints && uid !in todo && HintHolds(proc, uid, hints[uid])
      invariant forall uid :: uid in resolved ==> hints[uid] == Some(resolved[uid])
      invariant forall uid :: uid in needScan <==> uid in hints && uid !in todo && !HintHolds(proc, uid, hints[uid])
    {
      var uid :| uid in todo;
      todo := todo - {uid};
      if HintHolds(proc, uid, hints[uid]) {
        resolved := resolved[uid := hints[uid].value];
      } else {
        needScan := needScan + [uid];
      }
    }
    if needScan != [] {
      var scanned := ScanIntoMap(proc, needScan);
      resolved := resolved + scanned;
    }
  }
}
