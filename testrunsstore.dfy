/**
 * The run list of the browser, src/hooks/useTestRuns.ts: the runs loaded from the
 * server, the selected run, and the two ways a run enters the list, `addRun`
 * (prepend) and `updateRun` (replace the entry with the same id, or prepend).
 *
 * The requests to the server are left out; the loaded list is a parameter.
 */
module TestRunsStore {
  import opened Common
  import opened Runs

  /** The position of the first run with the given id, -1 when there is none. */
  function IndexOfRun(runs: seq<TestRun<Message>>, id: string): int
  {
    FindIndex(runs, (r: TestRun<Message>) => r.id == id)
  }

  /**
   * The list `updateRun` produces: the first run with the same id replaced, or the
   * run put in front. Either way the list holds the updated run afterwards and has
   * grown by at most one.
   */
  function Upsert(runs: seq<TestRun<Message>>, updated: TestRun<Message>): (r: seq<TestRun<Message>>)
    ensures updated in r
    ensures |runs| <= |r| <= |runs| + 1
  {
    var index := IndexOfRun(runs, updated.id);
    if index == -1 then [updated] + runs
    else assert runs[index := updated][index] == updated; runs[index := updated]
  }

  /** A run whose id is new goes to the front; the list is one longer and otherwise as it was. */
  lemma UpsertAbsent(runs: seq<TestRun<Message>>, updated: TestRun<Message>)
    requires forall i :: 0 <= i < |runs| ==> runs[i].id != updated.id
    ensures Upsert(runs, updated) == [updated] + runs
    ensures |Upsert(runs, updated)| == |runs| + 1
  {
    assert IndexOfRun(runs, updated.id) == -1;
  }

  /**
   * A run whose id is already listed replaces the first entry with that id; the
   * length and every other position stay as they were.
   */
  lemma UpsertPresent(runs: seq<TestRun<Message>>, updated: TestRun<Message>, k: nat)
    requires k < |runs| && runs[k].id == updated.id
    requires forall i :: 0 <= i < k ==> runs[i].id != updated.id
    ensures |Upsert(runs, updated)| == |runs|
    ensures Upsert(runs, updated)[k] == updated
    ensures forall i :: 0 <= i < |runs| && i != k ==> Upsert(runs, updated)[i] == runs[i]
  {
    assert IndexOfRun(runs, updated.id) == k;
  }

  /** Applying the same update twice gives the list one application gives. */
  lemma UpsertIdempotent(runs: seq<TestRun<Message>>, updated: TestRun<Message>)
    ensures Upsert(Upsert(runs, updated), updated) == Upsert(runs, updated)
  {
    var once := Upsert(runs, updated);
    var index := IndexOfRun(runs, updated.id);
    if index == -1 {
      assert IndexOfRun(once, updated.id) == 0;
    } else {
      assert once[index] == updated;
      assert forall i :: 0 <= i < index ==> once[i] == runs[i];
      assert IndexOfRun(once, updated.id) == index;
    }
  }

  /** The hook's state: the listed runs, newest first, and the run being shown. */
  class RunsStore {
    var runs: seq<TestRun<Message>>
    var selectedRun: Option<TestRun<Message>>

    constructor()
      ensures runs == [] && selectedRun == None
    {
      runs := [];
      selectedRun := None;
    }

    /** `loadRuns`: the list becomes what the server returned. */
    method LoadRuns(saved: seq<TestRun<Message>>)
      modifies this
      ensures runs == saved && selectedRun == old(selectedRun)
    {
      runs := saved;
    }

    method SetSelectedRun(run: Option<TestRun<Message>>)
      modifies this
      ensures selectedRun == run && runs == old(runs)
    {
      selectedRun := run;
    }

    /** `addRun`: the new run goes in front of the others, which keep their order. */
    method AddRun(newRun: TestRun<Message>)
      modifies this
      ensures runs == [newRun] + old(runs)
      ensures runs[0] == newRun && runs[1..] == old(runs)
      ensures selectedRun == old(selectedRun)
    {
      runs := [newRun] + runs;
    }

    /**
     * `updateRun`: the list is upserted by id, and the selected run is replaced
     * only when it has the updated run's id.
     */
    method UpdateRun(updatedRun: TestRun<Message>)
      modifies this
      ensures runs == Upsert(old(runs), updatedRun)
      ensures old(selectedRun).Some? && old(selectedRun).value.id == updatedRun.id ==> selectedRun == Some(updatedRun)
      ensures !(old(selectedRun).Some? && old(selectedRun).value.id == updatedRun.id) ==> selectedRun == old(selectedRun)
    {
      var index := IndexOfRun(runs, updatedRun.id);
      var newRuns := runs;
      if index == -1 {
        runs := [updatedRun] + newRuns;
      } else {
        newRuns := newRuns[index := updatedRun];
        runs := newRuns;
      }
      if selectedRun.Some? && selectedRun.value.id == updatedRun.id {
        selectedRun := Some(updatedRun);
      }
    }
  }
}
