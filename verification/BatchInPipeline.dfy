/** The loops of the worker compute what the steps of the pipeline write: the two views of a batch agree. */
module BatchInPipeline {
  import opened Domain
  import opened Tally
  import opened Tables
  import opened BatchWork
  import Pipeline

  /** The decodable events of a window, as the pipeline's agents hold them. */
  function WorkOf(es: seq<Event>): Log {
    if es == [] then map[]
    else
      var last := es[|es| - 1];
      var front := WorkOf(es[..|es| - 1]);
      if Decodable(last.content) then front[last.id := last.content] else front
  }

  predicate DistinctIds(es: seq<Event>) {
    forall i, j :: 0 <= i < j < |es| ==> es[i].id != es[j].id
  }

  lemma {:induction false} WorkHas(es: seq<Event>, i: nat)
    requires DistinctIds(es)
    ensures i in WorkOf(es) <==> exists n :: 0 <= n < |es| && es[n].id == i && Decodable(es[n].content)
    ensures forall n :: 0 <= n < |es| && es[n].id == i && i in WorkOf(es) ==> WorkOf(es)[i] == es[n].content
  {
    if es != [] {
      WorkHas(es[..|es| - 1], i);
    }
  }

  /** Adding up along the list is adding up over the set. */
  lemma {:induction false} TotalIsSum(es: seq<Event>, m: Meter)
    requires DistinctIds(es)
    ensures Total(Scores(es), m) == Sum(WorkOf(es), WorkOf(es).Keys, m)
  {
    if es == [] {
    } else {
      var front, last := es[..|es| - 1], es[|es| - 1];
      TotalIsSum(front, m);
      if Decodable(last.content) {
        var w, w' := WorkOf(front), WorkOf(es);
        WorkHas(front, last.id);
        assert w'.Keys - {last.id} == w.Keys;
        SumRemove(w', w'.Keys, last.id, m);
        SumSame(w', w, w.Keys, m);
        TotalSnoc(Scores(front), Decode(last.content).score, m);
        assert Scores(es) == Scores(front) + [Decode(last.content).score];
        assert Worth(w', last.id, m) == Measure(Decode(last.content).score, m);
      } else {
        assert Scores(es) == Scores(front) && WorkOf(es) == WorkOf(front);
      }
    }
  }

  lemma {:induction false} KeysAgree(es: seq<Event>, d: Dim)
    requires DistinctIds(es)
    ensures KeysOf(Scores(es), d) == Keys(WorkOf(es), WorkOf(es).Keys, d)
    ensures AllReadable(WorkOf(es), WorkOf(es).Keys)
  {
    if es != [] {
      var front, last := es[..|es| - 1], es[|es| - 1];
      KeysAgree(front, d);
      if Decodable(last.content) {
        var w, w' := WorkOf(front), WorkOf(es);
        WorkHas(front, last.id);
        assert Keys(w', w'.Keys, d) == Keys(w, w.Keys, d) + {Key(ScoreAt(w', last.id), d)} by {
          assert forall i :: i in w ==> i != last.id && Readable(w', i) && ScoreAt(w', i) == ScoreAt(w, i);
          assert forall i :: i in w' <==> i in w || i == last.id;
        }
        var p := Decode(last.content).score;
        assert forall q :: q in Scores(es) <==> q in Scores(front) || q == p by {
          assert Scores(es) == Scores(front) + [p];
        }
      }
    }
  }

  lemma DeltasAt(table: map<int, int>, es: seq<Event>, deltas: seq<Delta>, d: Dim, k: int)
    requires DistinctIds(es) && AreTotals(deltas, Scores(es), d)
    ensures Get(AddDeltas(table, deltas), k) == Get(table, k) + Sum(WorkOf(es), WorkOf(es).Keys, Points(d, k))
    ensures k in AddDeltas(table, deltas) <==> k in table || k in Keys(WorkOf(es), WorkOf(es).Keys, d)
  {
    BatchIsOneByOne(table, deltas, Scores(es), Scores(es), d);
    AddEachTotals(table, Scores(es), d);
    TotalIsSum(es, Points(d, k));
    KeysAgree(es, d);
  }

  /** BulkIncrementGuildScores on the batch's totals leaves guild_scores as the pipeline's commit does. */
  lemma UpsertIsCommit(table: map<int, int>, es: seq<Event>, deltas: seq<Delta>)
    requires DistinctIds(es) && AreTotals(deltas, Scores(es), ByGuild)
    ensures AddDeltas(table, SortByKey(deltas)) == table + Pipeline.NewScores(table, WorkOf(es))
  {
    hide AddDeltas, Sum, WorkOf, Keys, AreTotals, SortByKey;
    var sorted, w := SortByKey(deltas), WorkOf(es);
    SortedTotals(deltas, Scores(es), ByGuild);
    var a, b := AddDeltas(table, sorted), table + Pipeline.NewScores(table, w);
    forall k ensures (k in a <==> k in b) && (k in a ==> a[k] == b[k]) {
      DeltasAt(table, es, sorted, ByGuild, k);
      if k !in Keys(w, w.Keys, ByGuild) {
        SumOutside(w, w.Keys, ByGuild, k);
      }
    }
  }

  /** One pipeline of ZINCRBYs that all arrive leaves the ZSet as the pipeline's reflection does. */
  lemma IncrementsAreReflection(z: map<int, int>, es: seq<Event>, deltas: seq<Delta>, d: Dim)
    requires DistinctIds(es) && AreTotals(deltas, Scores(es), d)
    ensures AddDeltas(z, deltas) == Pipeline.Bump(z, WorkOf(es), Keys(WorkOf(es), WorkOf(es).Keys, d), d)
  {
    hide AddDeltas, Sum, WorkOf, Keys, AreTotals;
    var w := WorkOf(es);
    var a, b := AddDeltas(z, deltas), Pipeline.Bump(z, w, Keys(w, w.Keys, d), d);
    forall k ensures (k in a <==> k in b) && (k in a ==> a[k] == b[k]) {
      DeltasAt(z, es, deltas, d, k);
      if k !in Keys(w, w.Keys, d) {
        SumOutside(w, w.Keys, d, k);
      }
    }
  }

  /** A window as ListPending returns it. */
  predicate IsWindow(es: seq<Event>, events: map<nat, Row>, ids: seq<nat>) {
    |es| == |ids| && forall n :: 0 <= n < |ids| ==>
      ids[n] in events && es[n] == Event(ids[n], events[ids[n]].content, events[ids[n]].retry)
  }

  /** The batch transaction of the pipeline holds and will write exactly what buildBatchWork collects. */
  lemma WindowIsOpened(es: seq<Event>, events: map<nat, Row>, ids: seq<nat>)
    requires IsWindow(es, events, ids) && Distinct(ids)
    ensures DistinctIds(es) && forall i :: i in ids ==> i in events
    ensures var g := Pipeline.OpenOn(events, false, ids);
            g.work == WorkOf(es) && Elems(g.ids) == WorkOf(es).Keys && g.bad == Elems(Ids(Bad(es)))
  {
    forall i | i in ids ensures i in events {
      var n :| 0 <= n < |ids| && ids[n] == i;
    }
    var g := Pipeline.OpenOn(events, false, ids);
    forall i: nat ensures (i in g.work <==> i in WorkOf(es)) && (i in g.work ==> g.work[i] == WorkOf(es)[i]) {
      WorkHas(es, i);
      if i in ids {
        var n :| 0 <= n < |ids| && ids[n] == i;
        assert es[n].id == i;
      }
    }
    assert g.work == WorkOf(es);
    BadOnes(es);
    forall i: nat ensures i in g.bad <==> i in Ids(Bad(es)) {
      if i in ids {
        var n :| 0 <= n < |ids| && ids[n] == i;
        assert es[n].id == i;
      }
    }
  }

  lemma {:induction false} BadOnes(es: seq<Event>)
    ensures forall i :: i in Ids(Bad(es)) <==> exists n :: 0 <= n < |es| && es[n].id == i && !Decodable(es[n].content)
  {
    if es != [] {
      var front, last := es[..|es| - 1], es[|es| - 1];
      BadOnes(front);
      assert Decodable(last.content) ==> Bad(es) == Bad(front);
      assert !Decodable(last.content) ==> Ids(Bad(es)) == Ids(Bad(front)) + [last.id];
      forall i ensures i in Ids(Bad(es)) <==> exists n :: 0 <= n < |es| && es[n].id == i && !Decodable(es[n].content) {
        assert es[|es| - 1] == last;
      }
    }
  }
}
