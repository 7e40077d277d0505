/** Progress objects passed to `onProgress`, the JavaScript comparisons the views make on
    them, and the per-step icons the views derive. */
module Progress {
  import opened Wrappers

  /** The optional `data` payload of a progress object. */
  datatype Data = Data(aesKeyHex: Option<string>, hashMatch: Option<string>)

  /** A progress object; every field may be absent from the literal that builds it. */
  datatype Progress = Progress(step: Option<int>, status: Option<string>, error: Option<bool>, data: Option<Data>)

  /** `{ step, status }`. */
  function Event(step: int, status: string): Progress {
    Progress(Some(step), Some(status), None, None)
  }

  /** `{ step, status, data }`. */
  function EventWithData(step: int, status: string, data: Data): Progress {
    Progress(Some(step), Some(status), None, Some(data))
  }

  /** `{ error: true, status, step }`, or `{ error: true, status }` when `step` is `None`. */
  function FailureEvent(status: string, step: Option<int>): Progress {
    Progress(step, Some(status), Some(true), None)
  }

  /** `progress.error` is truthy. */
  predicate HasError(p: Progress) {
    p.error == Some(true)
  }

  /** `progress.step === n`. */
  predicate StepIs(p: Progress, n: int) {
    p.step == Some(n)
  }

  /** `progress.step > n`; false when `step` is absent. */
  predicate StepAbove(p: Progress, n: int) {
    p.step.Some? && p.step.value > n
  }

  /** `progress.step >= n`; false when `step` is absent. */
  predicate StepAtLeast(p: Progress, n: int) {
    p.step.Some? && p.step.value >= n
  }

  /** `progress.step < n`; false when `step` is absent. */
  predicate StepBelow(p: Progress, n: int) {
    p.step.Some? && p.step.value < n
  }

  /** The step numbers of a sequence of progress objects. */
  function Steps(events: seq<Progress>): (r: seq<Option<int>>)
    ensures |r| == |events| && forall i | 0 <= i < |events| :: r[i] == events[i].step
  {
    seq(|events|, i requires 0 <= i < |events| => events[i].step)
  }

  /** The steps of a concatenation are the steps of its parts. */
  lemma StepsAppend(a: seq<Progress>, b: seq<Progress>)
    ensures Steps(a + b) == Steps(a) + Steps(b)
  {
    assert forall i | 0 <= i < |a + b| :: Steps(a + b)[i] == (Steps(a) + Steps(b))[i];
  }

  /** `[Some(lo), Some(lo + 1), ..., Some(hi - 1)]`. */
  function Ascending(lo: int, hi: int): (r: seq<Option<int>>)
    requires lo <= hi
    ensures |r| == hi - lo && forall i | 0 <= i < |r| :: r[i] == Some(lo + i)
  {
    seq(hi - lo, i requires 0 <= i < hi - lo => Some(lo + i))
  }

  /** No object of the sequence carries an error flag. */
  predicate NoErrors(events: seq<Progress>) {
    forall i | 0 <= i < |events| :: !HasError(events[i])
  }

  /** `{ ...prev, ...update }`: a field present in the update replaces the previous one,
      an absent field keeps the previous value. */
  function Merge(prev: Progress, update: Progress): (r: Progress)
    ensures update == Progress(None, None, None, None) ==> r == prev
    ensures update.step.Some? && update.status.Some? && update.error.Some? && update.data.Some? ==> r == update
  {
    Progress(
      if update.step.Some? then update.step else prev.step,
      if update.status.Some? then update.status else prev.status,
      if update.error.Some? then update.error else prev.error,
      if update.data.Some? then update.data else prev.data)
  }

  /** Spreading two updates in turn is spreading their merge: `Merge` is associative. */
  lemma MergeAssociative(a: Progress, b: Progress, c: Progress)
    ensures Merge(Merge(a, b), c) == Merge(a, Merge(b, c))
  {
  }

  /** Spreading the same update twice changes nothing the first time did not. */
  lemma MergeIdempotent(prev: Progress, update: Progress)
    ensures Merge(Merge(prev, update), update) == Merge(prev, update)
  {
  }

  /** The state after `setProgress(prev => ({ ...prev, ...p }))` for each event in turn:
      a field the last event carries is shown as it carries it, and a field no event
      carries keeps its starting value. */
  function MergeAll(start: Progress, events: seq<Progress>): (r: Progress)
    ensures events != [] && events[|events| - 1].step.Some? ==> r.step == events[|events| - 1].step
    ensures events != [] && events[|events| - 1].status.Some? ==> r.status == events[|events| - 1].status
    ensures events != [] && events[|events| - 1].error.Some? ==> r.error == events[|events| - 1].error
    ensures events != [] && events[|events| - 1].data.Some? ==> r.data == events[|events| - 1].data
    decreases |events|
  {
    if events == [] then start else MergeAll(Merge(start, events[0]), events[1..])
  }

  /** A field that no event carries keeps its starting value. */
  lemma {:induction false} MergeAllKeeps(start: Progress, events: seq<Progress>)
    ensures (forall i | 0 <= i < |events| :: events[i].step.None?) ==> MergeAll(start, events).step == start.step
    ensures (forall i | 0 <= i < |events| :: events[i].status.None?) ==> MergeAll(start, events).status == start.status
    ensures (forall i | 0 <= i < |events| :: events[i].error.None?) ==> MergeAll(start, events).error == start.error
    ensures (forall i | 0 <= i < |events| :: events[i].data.None?) ==> MergeAll(start, events).data == start.data
    decreases |events|
  {
    if events != [] {
      MergeAllKeeps(Merge(start, events[0]), events[1..]);
      assert forall i | 0 <= i < |events[1..]| :: events[1..][i] == events[i + 1];
    }
  }

  /** Folding a concatenation folds its halves in order. */
  lemma {:induction false} MergeAllAppend(start: Progress, a: seq<Progress>, b: seq<Progress>)
    ensures MergeAll(start, a + b) == MergeAll(MergeAll(start, a), b)
    decreases |a|
  {
    if a != [] {
      assert (a + b)[0] == a[0] && (a + b)[1..] == a[1..] + b;
      MergeAllAppend(Merge(start, a[0]), a[1..], b);
    } else {
      assert a + b == b;
    }
  }

  /** Merging one more event merges it into the state the earlier ones left. */
  lemma MergeAllSnoc(start: Progress, events: seq<Progress>, e: Progress)
    ensures MergeAll(start, events + [e]) == Merge(MergeAll(start, events), e)
  {
    MergeAllAppend(start, events, [e]);
    assert MergeAll(MergeAll(start, events), [e]) == MergeAll(Merge(MergeAll(start, events), e), []);
  }

  /** Merging a run of plain events (step and status only) leaves the last step and
      status, and keeps the error flag and data the state had. */
  lemma {:induction false} MergeAllPlain(start: Progress, events: seq<Progress>)
    requires events != []
    requires forall i | 0 <= i < |events| ::
               events[i].step.Some? && events[i].status.Some? && events[i].error.None? && events[i].data.None?
    ensures MergeAll(start, events) ==
            Progress(events[|events| - 1].step, events[|events| - 1].status, start.error, start.data)
    decreases |events|
  {
    if |events| > 1 {
      MergeAllPlain(Merge(start, events[0]), events[1..]);
    }
  }

  /** How a view shows one step of a process. */
  datatype StepIcon = Failed | Complete | Cancelled | InProgress | Pending

  /** How many entries of `icons` are `icon`. */
  function Count(icons: seq<StepIcon>, icon: StepIcon): nat
    decreases |icons|
  {
    if icons == [] then 0 else (if icons[0] == icon then 1 else 0) + Count(icons[1..], icon)
  }

  /** `n` copies of one icon. */
  function Repeat(icon: StepIcon, n: nat): (r: seq<StepIcon>)
    ensures |r| == n && forall i | 0 <= i < n :: r[i] == icon
  {
    seq(n, _ => icon)
  }
}
