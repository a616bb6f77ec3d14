/** Histories in which duplicates arrive late: any batch that took effect may come again, at any time. */
module LateHistories {
  import opened Tables
  import opened ProtocolHistory
  import opened ProtocolRuns
  import opened ProtocolFollows
  import opened ProtocolOrdinals
  import opened Deliveries

  /** A batch sent for the first time, or a duplicate of one sent before. */
  datatype Delivery = First(step: Step) | Late(of: nat)

  function Firsts(deliveries: seq<Delivery>): seq<Step> {
    if deliveries == [] then []
    else if deliveries[0].First? then [deliveries[0].step] + Firsts(deliveries[1..])
    else Firsts(deliveries[1..])
  }

  /** `sent` are the batches sent so far, the first of them under the seed `start`. A duplicate comes under its own. */
  function AfterDeliveries(w: World, sent: seq<Step>, start: nat, deliveries: seq<Delivery>): World
    decreases |deliveries|
  {
    if deliveries == [] then w
    else
      match deliveries[0]
      case First(step) =>
        AfterDeliveries(Next(w, step).(db := Delivered(w, step)), sent + [step], start, deliveries[1..])
      case Late(of) =>
        var db := if of < |sent| then Delivered(w.(seed := start + of), sent[of]) else w.db;
        AfterDeliveries(w.(db := db), sent, start, deliveries[1..])
  }

  /** The batch took effect when it was sent, and is not one whose ended task a revival brought back. */
  ghost predicate IsSettled(w: World, sent: seq<Step>, of: nat) {
    && of < |sent| && ActsOnce(sent[of])
    && Apply(After(w, sent[..of]), sent[of]) != After(w, sent[..of]).db
    && !Undone(After(w, sent).db, sent[of], w.seed + of)
  }

  /** Every duplicate is of a batch that is settled when it comes. */
  ghost predicate ComeSettled(w: World, sent: seq<Step>, deliveries: seq<Delivery>)
    decreases |deliveries|
  {
    deliveries == []
    || match deliveries[0]
       case First(step) => ComeSettled(w, sent + [step], deliveries[1..])
       case Late(of) => IsSettled(w, sent, of) && ComeSettled(w, sent, deliveries[1..])
  }

  lemma {:induction false} SeedAfter(w: World, steps: seq<Step>)
    ensures After(w, steps).seed == w.seed + |steps|
    decreases |steps|
  {
    if steps != [] { SeedAfter(Next(w, steps[0]), steps[1..]); }
  }

  lemma OneAfter(w: World, step: Step)
    ensures After(w, [step]) == Next(w, step)
  {
    assert [step][1..] == [];
    assert After(Next(w, step), []) == Next(w, step);
  }

  lemma AfterOneMore(w: World, steps: seq<Step>, step: Step)
    ensures After(w, steps + [step]) == Next(After(w, steps), step)
  {
    AfterBoth(w, steps, [step]);
    OneAfter(After(w, steps), step);
  }

  /** The mints of a whole history are fresh where each of its batches is sent. */
  lemma MintIsNew(w: World, steps: seq<Step>, of: nat)
    requires of < |steps| && FreshMints(w.db, steps)
    ensures MintsNew(After(w, steps[..of]).db, steps[of]) && MintsApart(steps[of], steps[of + 1..])
  {
    forall i | 0 <= i < of && Mints(steps[of]).Some? ensures Mints(steps[..of][i]) != Mints(steps[of]) {
      assert steps[..of][i] == steps[i];
      if Mints(steps[i]).Some? { assert Mints(steps[i]) != Mints(steps[of]); }
    }
    MintStaysNew(w, steps[..of], steps[of]);
  }

  lemma EffectNamesARun(w: World, step: Step)
    requires Apply(w, step) != w.db
    ensures NamesARun(w.db, step)
  {
  }

  /** A duplicate of a settled batch changes no row. */
  lemma SettledStays(w: World, sent: seq<Step>, of: nat)
    requires WorldInv(w) && AllUnspent(w) && FreshMints(w.db, sent) && IsSettled(w, sent, of)
    ensures Delivered(After(w, sent).(seed := w.seed + of), sent[of]) == After(w, sent).db
  {
    hide WorldInv, AllUnspent, FreshMints, Undone, Delivered, MintsApart, MintsNew, NamesARun, Apply, AfterDeliveries,
         ActsOnce;
    var before, step, between := After(w, sent[..of]), sent[of], sent[of + 1..];
    SeedAfter(w, sent[..of]);
    RunKeeps(w, sent[..of]);
    SeedsAreSpentInTurn(w, sent[..of]);
    MintIsNew(w, sent, of);
    EffectNamesARun(before, step);
    assert sent == (sent[..of] + [step]) + between;
    AfterBoth(w, sent[..of] + [step], between);
    AfterOneMore(w, sent[..of], step);
    LateDuplicate(before, step, between, step);
  }

  lemma FreshOfFewer(db: Db, some: seq<Step>, more: seq<Step>)
    requires FreshMints(db, some + more)
    ensures FreshMints(db, some)
  {
    forall i | 0 <= i < |some| ensures MintsNew(db, some[i]) {
      assert (some + more)[i] == some[i];
    }
    forall i, j | 0 <= i < j < |some| && Mints(some[i]).Some? ensures Mints(some[i]) != Mints(some[j]) {
      assert (some + more)[i] == some[i] && (some + more)[j] == some[j];
    }
  }

  /** A first delivery is its atomic step. */
  lemma FirstIsItsStep(w: World, sent: seq<Step>, step: Step)
    requires WorldInv(w) && AllUnspent(w) && FreshMints(w.db, sent + [step])
    ensures Delivered(After(w, sent), step) == Apply(After(w, sent), step)
  {
    var now := After(w, sent);
    RunKeeps(w, sent);
    SeedsAreSpentInTurn(w, sent);
    MintIsNew(w, sent + [step], |sent|);
    assert (sent + [step])[..|sent|] == sent;
    DeliveredOnce(now, step);
  }

  /**
   * However many duplicates of settled batches arrive, each as late as it likes and as often as it
   * likes, the history reaches the very world it reaches without them.
   */
  lemma {:induction false} LateDuplicatesChangeNothing(w: World, sent: seq<Step>, deliveries: seq<Delivery>)
    requires WorldInv(w) && AllUnspent(w) && FreshMints(w.db, sent + Firsts(deliveries)) && ComeSettled(w, sent, deliveries)
    ensures AfterDeliveries(After(w, sent), sent, w.seed, deliveries) == After(w, sent + Firsts(deliveries))
    decreases |deliveries|
  {
    hide WorldInv, AllUnspent, FreshMints, IsSettled, Delivered, Apply;
    if deliveries == [] {
      assert sent + [] == sent;
    } else if deliveries[0].First? {
      var step, rest := deliveries[0].step, Firsts(deliveries[1..]);
      assert sent + Firsts(deliveries) == (sent + [step]) + rest;
      FreshOfFewer(w.db, sent + [step], rest);
      FirstIsItsStep(w, sent, step);
      AfterOneMore(w, sent, step);
      LateDuplicatesChangeNothing(w, sent + [step], deliveries[1..]);
    } else {
      FreshOfFewer(w.db, sent, Firsts(deliveries));
      SettledIsSent(w, sent, deliveries[0].of);
      SettledStays(w, sent, deliveries[0].of);
      LateDuplicatesChangeNothing(w, sent, deliveries[1..]);
    }
  }

  lemma SettledIsSent(w: World, sent: seq<Step>, of: nat)
    requires IsSettled(w, sent, of)
    ensures of < |sent|
  {
  }
}
