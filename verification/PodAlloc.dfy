// Model of pkg/actuator/pod_alloc.go: projecting the allocation in force onto
// the labels of a Deployment's running pods, one concurrent patch per pod.
module PodAlloc {
  import opened Basics
  import opened JsonPointer
  import opened Ownership

  const KEY_ACCELERATOR := "inferno.server.allocation.accelerator"
  const KEY_MAX_BATCH := "inferno.server.allocation.maxbatchsize"

  function Digit(d: int): string
    requires 0 <= d < 10
  {
    ["0123456789"[d]]
  }

  function NatToString(n: nat): string {
    if n < 10 then Digit(n) else NatToString(n / 10) + Digit(n % 10)
  }

  /** strconv.Itoa */
  function Itoa(n: int): string {
    if n < 0 then "-" + NatToString(-n) else NatToString(n)
  }

  /** What a string of digits denotes. */
  function NatValue(s: string): int {
    if s == "" then 0 else 10 * NatValue(s[..|s| - 1]) + (s[|s| - 1] as int - '0' as int)
  }

  /** strconv.Atoi, on what denotes a number. */
  function Atoi(s: string): int {
    if s != "" && s[0] == '-' then -NatValue(s[1..]) else NatValue(s)
  }

  /** Digits, without a leading zero unless it is the only one. */
  ghost predicate IsDecimal(s: string) {
    s != "" && (|s| > 1 ==> s[0] != '0') && forall i :: 0 <= i < |s| ==> '0' <= s[i] <= '9'
  }

  lemma DigitValue(d: int)
    requires 0 <= d < 10
    ensures Digit(d) == [('0' as int + d) as char]
  {
  }

  lemma OneDigit(d: int)
    requires 0 <= d < 10
    ensures NatValue(Digit(d)) == d && IsDecimal(Digit(d)) && (Digit(d)[0] == '0' <==> d == 0)
  {
    DigitValue(d);
    assert Digit(d)[..0] == "";
  }

  lemma OneMoreDigit(s: string, d: int)
    requires IsDecimal(s) && s[0] != '0' && 0 <= d < 10
    ensures IsDecimal(s + Digit(d)) && (s + Digit(d))[0] != '0' && NatValue(s + Digit(d)) == 10 * NatValue(s) + d
  {
    DigitValue(d);
    assert (s + Digit(d))[..|s|] == s;
  }

  lemma {:induction false} NatRoundTrip(n: nat)
    ensures NatValue(NatToString(n)) == n && IsDecimal(NatToString(n)) && (NatToString(n)[0] == '0' <==> n == 0)
  {
    if n < 10 {
      OneDigit(n);
    } else {
      NatRoundTrip(n / 10);
      OneMoreDigit(NatToString(n / 10), n % 10);
    }
  }

  /** A number is written in decimal, with a sign only if it is negative, and reads back as itself. */
  lemma ItoaRoundTrip(n: int)
    ensures Atoi(Itoa(n)) == n
    ensures if n >= 0 then IsDecimal(Itoa(n)) else Itoa(n)[0] == '-' && IsDecimal(Itoa(n)[1..])
  {
    NatRoundTrip(if n < 0 then -n else n);
  }

  function Patched(p: KubePod, accelerator: string, maxBatch: string): KubePod {
    p.(labels := p.labels[KEY_ACCELERATOR := accelerator][KEY_MAX_BATCH := maxBatch])
  }

  /** That is what the server makes of the one JSON patch with two "add" operations. */
  lemma PatchServed(p: KubePod, accelerator: string, maxBatch: string)
    ensures var l1 := Applied(p.labels, Add(JsonPatchEscape(KEY_ACCELERATOR), accelerator));
      l1.Some? && Applied(l1.value, Add(JsonPatchEscape(KEY_MAX_BATCH), maxBatch)) ==
                  Some(Patched(p, accelerator, maxBatch).labels)
  {
    RoundTrip(KEY_ACCELERATOR);
    RoundTrip(KEY_MAX_BATCH);
  }

  predicate InForce(p: KubePod, accelerator: string, maxBatch: string) {
    LabelOf(p.labels, KEY_ACCELERATOR) == accelerator && LabelOf(p.labels, KEY_MAX_BATCH) == maxBatch
  }

  lemma KeysDiffer()
    ensures KEY_ACCELERATOR != KEY_MAX_BATCH
  {
    assert |KEY_ACCELERATOR| < |KEY_MAX_BATCH|;
  }

  /** Patching puts the allocation in force and leaves every other label alone. */
  lemma PatchedMeaning(p: KubePod, accelerator: string, maxBatch: string)
    ensures var q := Patched(p, accelerator, maxBatch);
      && InForce(q, accelerator, maxBatch)
      && q.name == p.name && q.phase == p.phase && q.owners == p.owners && q.conditions == p.conditions
      && forall k :: k != KEY_ACCELERATOR && k != KEY_MAX_BATCH ==> LabelOf(q.labels, k) == LabelOf(p.labels, k)
  {
    KeysDiffer();
  }

  /** Running, owned through the chain, and not yet carrying the allocation. */
  ghost predicate Selected(rss: seq<ReplicaSet>, depUID: string, p: KubePod, accelerator: string, maxBatch: string) {
    p.phase == POD_RUNNING && OwnsPod(rss, depUID, p) && !InForce(p, accelerator, maxBatch)
  }

  /** The pods after the call: those selected whose patch succeeds are patched. */
  ghost function Allocated(pods: map<string, KubePod>, rss: seq<ReplicaSet>, depUID: string, accelerator: string,
      maxBatch: string, reply: string -> Reply): map<string, KubePod> {
    map n | n in pods :: if Selected(rss, depUID, pods[n], accelerator, maxBatch) && reply(n).TookEffect()
                         then Patched(pods[n], accelerator, maxBatch) else pods[n]
  }

  ghost function SelectedNames(pods: map<string, KubePod>, rss: seq<ReplicaSet>, depUID: string, accelerator: string,
      maxBatch: string): set<string> {
    set n | n in pods && Selected(rss, depUID, pods[n], accelerator, maxBatch)
  }

  datatype Outcome = Nil | Error(pods: set<string>)

  /** The pods of one namespace that match the Deployment's selector, by name. */
  class PodStore {
    var pods: map<string, KubePod>

    constructor (pods: map<string, KubePod>)
      ensures this.pods == pods
    {
      this.pods := pods;
    }

    /** patchPodsAllocation. `rss` and `listed` are what the two LIST calls return (None if
        they fail, as when the GET of the Deployment does); `reply` tells how each patch ends.
        The goroutines of the fan-out run in any order. `issued` are the patches sent. */
    method PatchPodsAllocation(depUID: Option<string>, rss: Option<seq<ReplicaSet>>, listed: Option<seq<string>>,
        accelerator: string, maxBatch: int, reply: string -> Reply)
      returns (result: Option<Outcome>, issued: set<string>)
      requires listed.Some? ==>
                 (forall n :: n in listed.value <==> n in pods) && forall n :: n in pods ==> pods[n].name == n
      modifies this
      ensures result.None? <==> depUID.None? || rss.None? || listed.None?
      ensures result.None? ==> pods == old(pods) && issued == {}
      ensures result.Some? ==>
                && issued == SelectedNames(old(pods), rss.value, depUID.value, accelerator, Itoa(maxBatch))
                && pods == Allocated(old(pods), rss.value, depUID.value, accelerator, Itoa(maxBatch), reply)
                && (result.value == Nil <==> forall n :: n in issued ==> reply(n) == Served)
                && (result.value.Error? ==> result.value.pods == set n | n in issued && reply(n) != Served)
    {
      issued := {};
      if depUID.None? || rss.None? {
        return None, {};
      }
      var uids := OwnedReplicaSets(rss.value, depUID.value);
      if listed.None? {
        return None, {};
      }
      var maxBatchStr := Itoa(maxBatch);
      ghost var pods0 := pods;
      ghost var target := SelectedNames(pods0, rss.value, depUID.value, accelerator, maxBatchStr);

      // First pass (sequential): select the pods that need patching.
      var toPatch: set<string> := {};
      for i := 0 to |listed.value|
        invariant pods == pods0
        invariant toPatch == set n | n in listed.value[..i] && n in target
      {
        var n := listed.value[i];
        assert listed.value[..i + 1] == listed.value[..i] + [n];
        assert n in listed.value;
        var p := pods[n];
        if p.phase != POD_RUNNING {
          continue;
        }
        var owned := IsOwned(p, uids);
        assert owned <==> OwnsPod(rss.value, depUID.value, p);
        if !owned {
          continue;
        }
        if InForce(p, accelerator, maxBatchStr) {
          continue;
        }
        toPatch := toPatch + {n};
      }
      assert listed.value[..|listed.value|] == listed.value;
      assert toPatch == target;

      // Second pass (fan-out): one patch per selected pod, in any order.
      issued := toPatch;
      var failed := FanOut(toPatch, accelerator, maxBatchStr, reply);
      assert pods == Allocated(pods0, rss.value, depUID.value, accelerator, maxBatchStr, reply);
      result := if failed == {} then Some(Nil) else Some(Error(failed));
      assert forall n :: n in issued && reply(n) != Served ==> n in failed;
    }

    method FanOut(toPatch: set<string>, accelerator: string, maxBatch: string, reply: string -> Reply)
      returns (failed: set<string>)
      requires toPatch <= pods.Keys
      modifies this
      ensures failed == set n | n in toPatch && reply(n) != Served
      ensures pods == map n | n in old(pods) :: if n in toPatch && reply(n).TookEffect()
                                                then Patched(old(pods)[n], accelerator, maxBatch)
                                                else old(pods)[n]
    {
      failed := {};
      var pending := toPatch;
      while pending != {}
        invariant pending <= toPatch && pods.Keys == old(pods).Keys
        invariant failed == set n | n in toPatch - pending && reply(n) != Served
        invariant forall n :: n in pods ==>
                    pods[n] == if n in toPatch - pending && reply(n).TookEffect()
                               then Patched(old(pods)[n], accelerator, maxBatch)
                               else old(pods)[n]
      {
        var n :| n in pending;
        pending := pending - {n};
        if reply(n).TookEffect() {
          pods := pods[n := Patched(pods[n], accelerator, maxBatch)];
        }
        if reply(n) != Served {
          failed := failed + {n};
        }
      }
    }
  }

  /** The two labels read so; one that is absent reads as the empty string. */
  ghost predicate Carries(labels: map<string, string>, accelerator: string, maxBatch: string) {
    && accelerator == (if "inferno.server.allocation.accelerator" in labels
                       then labels["inferno.server.allocation.accelerator"] else "")
    && maxBatch == (if "inferno.server.allocation.maxbatchsize" in labels
                    then labels["inferno.server.allocation.maxbatchsize"] else "")
  }

  /** Patched are the running pods, owned through a ReplicaSet, whose labels read otherwise. */
  lemma SelectedExactly(rss: seq<ReplicaSet>, depUID: string, p: KubePod, accelerator: string, maxBatch: string)
    ensures Selected(rss, depUID, p, accelerator, maxBatch) <==>
            p.phase == "Running" && !Carries(p.labels, accelerator, maxBatch) && HasOwner(rss, depUID, p.owners)
  {
    OwnsExactly(rss, depUID, p);
  }

  /** A patch writes the two labels and leaves the pod alone otherwise. */
  lemma PatchedExactly(p: KubePod, accelerator: string, maxBatch: string)
    ensures var q := Patched(p, accelerator, maxBatch);
      && Carries(q.labels, accelerator, maxBatch)
      && q.name == p.name && q.phase == p.phase && q.owners == p.owners && q.conditions == p.conditions
      && (forall k :: k in p.labels ==> k in q.labels)
      && forall k :: k in q.labels ==>
           || k == "inferno.server.allocation.accelerator" || k == "inferno.server.allocation.maxbatchsize"
           || (k in p.labels && q.labels[k] == p.labels[k])
  {
    KeysDiffer();
  }

  // ------------------------------------------------------------ interleavings

  /** One interleaving of the fan-out: the order in which the patches reach the server. */
  function PatchInOrder(pods: map<string, KubePod>, order: seq<string>, accelerator: string, maxBatch: string,
      reply: string -> Reply): map<string, KubePod> {
    if order == [] then pods
    else
      var done := PatchInOrder(pods, order[..|order| - 1], accelerator, maxBatch, reply);
      var n := order[|order| - 1];
      if reply(n).TookEffect() && n in done then done[n := Patched(done[n], accelerator, maxBatch)] else done
  }

  /** Every interleaving of the selected patches ends in the same labels. */
  lemma {:induction false} Confluence(pods: map<string, KubePod>, order: seq<string>, names: set<string>,
      accelerator: string, maxBatch: string, reply: string -> Reply)
    requires forall i, j :: 0 <= i < j < |order| ==> order[i] != order[j]
    requires forall n :: n in order <==> n in names
    ensures PatchInOrder(pods, order, accelerator, maxBatch, reply) ==
            map n | n in pods :: if n in names && reply(n).TookEffect() then Patched(pods[n], accelerator, maxBatch)
                                 else pods[n]
  {
    if order != [] {
      var k := |order| - 1;
      assert order == order[..k] + [order[k]];
      Confluence(pods, order[..k], names - {order[k]}, accelerator, maxBatch, reply);
    }
  }

  // ------------------------------------------------------------- steady state

  lemma SelectionAfter(pods: map<string, KubePod>, rss: seq<ReplicaSet>, depUID: string, accelerator: string,
      maxBatch: string, reply: string -> Reply, n: string)
    requires n in pods
    ensures var pods' := Allocated(pods, rss, depUID, accelerator, maxBatch, reply);
      Selected(rss, depUID, pods'[n], accelerator, maxBatch) <==>
      Selected(rss, depUID, pods[n], accelerator, maxBatch) && reply(n).Refused?
  {
    PatchedMeaning(pods[n], accelerator, maxBatch);
  }

  /** The pods a second call selects are exactly those whose patch was refused in the first: after
      an error-free call with an unchanged pod set, none, so the second call issues no patch,
      and until then the set of pods still to be patched only shrinks. */
  lemma SecondCallSelects(pods: map<string, KubePod>, rss: seq<ReplicaSet>, depUID: string, accelerator: string,
      maxBatch: string, reply: string -> Reply)
    ensures var first := SelectedNames(pods, rss, depUID, accelerator, maxBatch);
      var pods' := Allocated(pods, rss, depUID, accelerator, maxBatch, reply);
      var second := SelectedNames(pods', rss, depUID, accelerator, maxBatch);
      && second == (set n | n in first && reply(n).Refused?)
      && (second == {} <==> forall n :: n in first ==> reply(n).TookEffect())
  {
    var pods' := Allocated(pods, rss, depUID, accelerator, maxBatch, reply);
    forall n | n in pods
      ensures n in SelectedNames(pods', rss, depUID, accelerator, maxBatch) <==>
              n in SelectedNames(pods, rss, depUID, accelerator, maxBatch) && reply(n).Refused?
    {
      SelectionAfter(pods, rss, depUID, accelerator, maxBatch, reply, n);
    }
    var first := SelectedNames(pods, rss, depUID, accelerator, maxBatch);
    var second := SelectedNames(pods', rss, depUID, accelerator, maxBatch);
    assert second == set n | n in first && reply(n).Refused?;
    if second == {} {
      forall n | n in first ensures reply(n).TookEffect() {
        assert n !in second;
      }
    }
  }

  /** A call whose result is nil leaves every running pod of the Deployment with the
      allocation in force, and touches no other pod and no other label. */
  lemma ErrorFreeCall(pods: map<string, KubePod>, rss: seq<ReplicaSet>, depUID: string, accelerator: string,
      maxBatch: string, reply: string -> Reply, n: string)
    requires n in pods
    requires forall k :: k in SelectedNames(pods, rss, depUID, accelerator, maxBatch) ==> reply(k) == Served
    ensures var q := Allocated(pods, rss, depUID, accelerator, maxBatch, reply)[n];
      && (pods[n].phase == POD_RUNNING && OwnsPod(rss, depUID, pods[n]) ==> InForce(q, accelerator, maxBatch))
      && (pods[n].phase != POD_RUNNING || !OwnsPod(rss, depUID, pods[n]) ==> q == pods[n])
      && forall k :: k != KEY_ACCELERATOR && k != KEY_MAX_BATCH ==> LabelOf(q.labels, k) == LabelOf(pods[n].labels, k)
  {
    PatchedMeaning(pods[n], accelerator, maxBatch);
    assert n in SelectedNames(pods, rss, depUID, accelerator, maxBatch) ==> reply(n) == Served;
  }
}
