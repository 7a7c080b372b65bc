/** The unattended prune client, against whatever the server answers.

    Each request takes the next answer off a list, and the list may hold anything: jobs with
    any content, refusals, lost replies, an interrupt, a termination. A deadline is an
    answer too, given without the request being sent; when the list is used up the deadline
    is all there is. So one call of the client with all possible lists covers every run.
 */
module PruneScheduler {
  import opened Options

  datatype State = Previewing | Ready | Running | Cancelling | Completed | Cancelled | Failed | Interrupted

  /** What marks a job as one and the same. */
  datatype Identity = Identity(id: string, root: string, age: string, cutoff: int, started: int)

  /** A reply's job. `identity` is None where the identity does not validate; `wellFormed`
      is false where a field is missing, of the wrong type, or out of range. */
  datatype Job = Job(identity: Option<Identity>, wellFormed: bool, state: State, confirmed: bool, hasError: bool,
                     errors: nat, changed: nat, expired: bool)

  datatype Reply = Got(job: Job) | Http(status: int) | Deadline | Broken | Interrupt | Terminate

  datatype Request = Current | Preview | StatusOf(id: string) | Start(id: string) | Cancel(id: string)

  datatype Exchange = Exchange(request: Request, reply: Reply)

  datatype Outcome = NotDone | SkippedBusy | DryRun | Pruned | CancelUnconfirmed

  datatype Cleanup = NotRequested | Unconfirmed | Saw(state: State)

  /** How the work ends: a result was set, or an exception of some kind. */
  datatype Ending = Finished | Problem | Stopped | Killed

  predicate Busy(s: State) { s in {Previewing, Ready, Running, Cancelling} }

  predicate Terminal(s: State) { !Busy(s) }

  predicate Validates(j: Job) {
    && j.wellFormed
    && (j.state in {Previewing, Ready} ==> !j.confirmed)
    && (j.state in {Running, Completed} ==> j.confirmed)
  }

  // ---------------------------------------------------------------- what a log may show

  /** A reply about the owned job that passed every check on a job. */
  predicate Shows(r: Reply, owner: Identity) {
    r.Got? && r.job.identity == Some(owner) && Validates(r.job)
  }

  /** A preview that may be started. */
  predicate StartablePreview(r: Reply, owner: Identity) {
    Shows(r, owner) && r.job.state == Ready && !r.job.confirmed && !r.job.hasError && !r.job.expired
    && r.job.errors == 0 && r.job.changed == 0
  }

  /** A finished prune without anything to complain of. */
  predicate CleanCompletion(r: Reply, owner: Identity) {
    Shows(r, owner) && r.job.state == Completed && r.job.confirmed && !r.job.hasError
    && r.job.errors == 0 && r.job.changed == 0
  }

  predicate Logged(log: seq<Exchange>, job: Job) {
    exists i :: 0 <= i < |log| && log[i].reply == Got(job)
  }

  predicate TerminalSeen(log: seq<Exchange>, owner: Identity) {
    exists i :: 0 <= i < |log| && Shows(log[i].reply, owner) && Terminal(log[i].reply.job.state)
  }

  /** At most one exchange of a kind. */
  predicate AtMostOnePreview(log: seq<Exchange>) {
    forall i, j :: 0 <= i < j < |log| ==> !(log[i].request.Preview? && log[j].request.Preview?)
  }

  predicate NoStart(log: seq<Exchange>) { forall i :: 0 <= i < |log| ==> !log[i].request.Start? }

  predicate NoPreview(log: seq<Exchange>) { forall i :: 0 <= i < |log| ==> !log[i].request.Preview? }

  /** The only start, if there is one, directly follows a startable preview of the owned job. */
  predicate StartsRightly(log: seq<Exchange>, owner: Identity) {
    forall i :: 0 <= i < |log| && log[i].request.Start? ==>
      && log[i].request.id == owner.id && i > 0 && StartablePreview(log[i - 1].reply, owner)
      && forall j :: 0 <= j < |log| && log[j].request.Start? ==> j == i
  }

  /** Every request that names a job names the owned one. */
  predicate NamesOnly(log: seq<Exchange>, id: string) {
    forall i :: 0 <= i < |log| && (log[i].request.StatusOf? || log[i].request.Start? || log[i].request.Cancel?) ==>
      log[i].request.id == id
  }

  predicate NamesNone(log: seq<Exchange>) {
    forall i :: 0 <= i < |log| ==> log[i].request.Current? || log[i].request.Preview?
  }

  /** What every stretch of the run keeps about the log, once a job is owned. */
  predicate OwnedLog(log: seq<Exchange>, owner: Identity) {
    AtMostOnePreview(log) && !NoPreview(log) && StartsRightly(log, owner) && NamesOnly(log, owner.id)
  }

  /** Another prune is under way: the current job says so, or the preview was refused. */
  predicate BusySeen(log: seq<Exchange>) {
    log != [] && (
      var last := log[|log| - 1];
      || (last.request.Current? && last.reply.Got? && Validates(last.reply.job) && Busy(last.reply.job.state))
      || last == Exchange(Preview, Http(409)))
  }

  /** The owned job was seen cancelled without ever having been confirmed. */
  predicate CancelSeen(log: seq<Exchange>, owner: Identity) {
    exists i :: 0 <= i < |log| && Shows(log[i].reply, owner)
                && log[i].reply.job.state == Cancelled && !log[i].reply.job.confirmed
  }

  lemma StartExchange(log: seq<Exchange>, owner: Identity, r: Reply)
    requires OwnedLog(log, owner) && NoStart(log) && log != [] && StartablePreview(log[|log| - 1].reply, owner)
    ensures OwnedLog(log + [Exchange(Start(owner.id), r)], owner)
  {
    var longer := log + [Exchange(Start(owner.id), r)];
    assert forall i :: 0 <= i < |log| ==> longer[i] == log[i];
    var p :| 0 <= p < |log| && log[p].request.Preview?;
    assert longer[p].request.Preview?;
  }

  /** Asking about the owned job spoils nothing. */
  lemma QuietExchange(log: seq<Exchange>, owner: Identity, request: Request, r: Reply)
    requires OwnedLog(log, owner) && (request == StatusOf(owner.id) || request == Cancel(owner.id))
    ensures OwnedLog(log + [Exchange(request, r)], owner)
    ensures NoStart(log) ==> NoStart(log + [Exchange(request, r)])
  {
    var longer := log + [Exchange(request, r)];
    assert forall i :: 0 <= i < |log| ==> longer[i] == log[i];
    var p :| 0 <= p < |log| && log[p].request.Preview?;
    assert longer[p].request.Preview?;
  }

  lemma StillLogged(log: seq<Exchange>, longer: seq<Exchange>, job: Job)
    requires Logged(log, job) && log <= longer
    ensures Logged(longer, job)
  {
    var i :| 0 <= i < |log| && log[i].reply == Got(job);
    assert longer[i].reply == Got(job);
  }

  // ---------------------------------------------------------------- the run

  class ScheduledRun {
    const olderThan: string
    const dryRun: bool
    var replies: seq<Reply>
    var log: seq<Exchange>
    var owned: Option<Identity>
    var outcome: Outcome
    var exitCode: nat
    var state: Option<State>
    var confirmed: bool
    var errors: nat
    var changed: nat
    var cleanup: Cleanup
    var failed: bool

    constructor (olderThan: string, dryRun: bool, replies: seq<Reply>)
      ensures this.olderThan == olderThan && this.dryRun == dryRun && this.replies == replies
      ensures Fresh()
    {
      this.olderThan, this.dryRun, this.replies := olderThan, dryRun, replies;
      log, owned, outcome, exitCode := [], None, NotDone, 1;
      state, confirmed, errors, changed, cleanup, failed := None, false, 0, 0, NotRequested, false;
    }

    /** A new result: not done, exit code 1, nothing owned, nothing sent. */
    ghost predicate Fresh()
      reads this
    {
      log == [] && owned == None && outcome == NotDone && exitCode == 1 && cleanup == NotRequested && !failed
      && state == None && !confirmed
    }

    /** Send a request, unless the deadline has passed. */
    method Call(request: Request) returns (r: Reply)
      modifies this`replies, this`log
      ensures r != Deadline ==> log == old(log) + [Exchange(request, r)]
      ensures r == Deadline ==> log == old(log)
      ensures |replies| <= |old(replies)| && (r != Deadline ==> |replies| < |old(replies)|)
    {
      if replies == [] {
        return Deadline;
      }
      r, replies := replies[0], replies[1..];
      if r != Deadline {
        log := log + [Exchange(request, r)];
      }
    }

    /** Check a job against the owned identity and take over what it says. */
    method Observe(job: Job) returns (ok: bool)
      requires owned.Some?
      modifies this`state, this`confirmed, this`errors, this`changed
      ensures ok ==> Shows(Got(job), owned.value) && (old(confirmed) ==> job.confirmed)
      ensures ok ==> state == Some(job.state) && confirmed == job.confirmed && errors == job.errors && changed == job.changed
      ensures !ok ==> state == old(state) && confirmed == old(confirmed)
    {
      if job.identity != owned || !Validates(job) || (confirmed && !job.confirmed) {
        return false;
      }
      state, confirmed, errors, changed := Some(job.state), job.confirmed, job.errors, job.changed;
      return true;
    }

    /** One request about the owned job, observed. Some(job) only if the job passed. */
    method Ask(request: Request) returns (r: Reply, job: Option<Job>)
      requires owned.Some? && OwnedLog(log, owned.value)
      requires request == StatusOf(owned.value.id) || request == Cancel(owned.value.id)
      modifies this`replies, this`log, this`state, this`confirmed, this`errors, this`changed
      ensures OwnedLog(log, owned.value) && old(log) <= log
      ensures NoStart(old(log)) ==> NoStart(log)
      ensures |replies| <= |old(replies)| && (r != Deadline ==> |replies| < |old(replies)|)
      ensures job.Some? ==> r == Got(job.value) && Observed(job.value) && log[|log| - 1].reply == r
      ensures job.Some? ==> errors == job.value.errors && changed == job.value.changed
      ensures job.None? ==> state == old(state) && confirmed == old(confirmed)
    {
      r := Call(request);
      job := None;
      QuietExchange(old(log), owned.value, request, r);
      if r.Got? {
        assert log[|log| - 1].reply == Got(r.job);
        var ok := Observe(r.job);
        if ok {
          job := Some(r.job);
        }
      }
    }

    /** An interrupt during cleanup is noted and the cleanup goes on. */
    method Note(r: Reply)
      modifies this`failed, this`exitCode
      ensures failed && exitCode != 0
    {
      failed, exitCode := true, if r.Terminate? then 143 else 130;
    }

    /** Ask for cancellation; where the request or its reply was lost, ask for the state. */
    method AskToCancel() returns (r: Reply, job: Option<Job>, acknowledged: bool)
      requires owned.Some? && OwnedLog(log, owned.value)
      modifies this`replies, this`log, this`state, this`confirmed, this`errors, this`changed
      ensures OwnedLog(log, owned.value) && old(log) <= log && (NoStart(old(log)) ==> NoStart(log))
      ensures |replies| <= |old(replies)| && (r != Deadline ==> |replies| < |old(replies)|)
      ensures job.Some? ==> Observed(job.value)
      ensures job.None? ==> state == old(state) && confirmed == old(confirmed)
    {
      r, job := Ask(Cancel(owned.value.id));
      acknowledged := job.Some?;
      if r.Http? {
        r, job := Ask(StatusOf(owned.value.id));
      }
    }

    /** The job is in the log as a valid reply about the owned job, and is the last observed. */
    ghost predicate Observed(job: Job)
      reads this
    {
      && owned.Some? && Logged(log, job) && Shows(Got(job), owned.value)
      && state == Some(job.state) && confirmed == job.confirmed
    }

    /** What every part of the cleanup keeps. */
    twostate predicate Quiet()
      reads this
    {
      && owned.Some? && owned == old(owned) && OwnedLog(log, owned.value) && old(log) <= log
      && (NoStart(old(log)) ==> NoStart(log))
      && |replies| <= |old(replies)|
    }

    /** The cancelling half of a round: None means that there is nothing to go on with. */
    method Press(job: Option<Job>, acknowledged: bool) returns (next: Option<Job>, acked: bool, again: bool)
      requires owned.Some? && OwnedLog(log, owned.value) && (job.Some? ==> Observed(job.value))
      modifies this`replies, this`log, this`state, this`confirmed, this`errors, this`changed, this`exitCode, this`failed
      ensures Quiet() && (next.Some? ==> Observed(next.value))
      ensures again ==> next == job && failed && exitCode != 0 && |replies| < |old(replies)|
      ensures !again ==> failed == old(failed) && exitCode == old(exitCode)
    {
      next, acked, again := job, acknowledged, false;
      if job.None? || (!acknowledged && job.value.state in {Previewing, Ready, Running}) {
        var r, seen, heard := AskToCancel();
        acked := acknowledged || heard;
        if seen.None? && (r.Interrupt? || r.Terminate?) {
          if job.Some? { StillLogged(old(log), log, job.value); }
          Note(r);
          again := true;
        } else {
          next := seen;
        }
      }
    }

    /** The watching half of a round. */
    method Watch(job: Job) returns (next: Option<Job>)
      requires owned.Some? && OwnedLog(log, owned.value) && Observed(job)
      modifies this`replies, this`log, this`state, this`confirmed, this`errors, this`changed, this`exitCode, this`failed
      ensures Quiet() && (next.Some? ==> Observed(next.value) && |replies| < |old(replies)|)
      ensures (failed && exitCode != 0) || (failed == old(failed) && exitCode == old(exitCode))
    {
      var r, seen := Ask(StatusOf(owned.value.id));
      next := seen;
      if seen.None? && (r.Interrupt? || r.Terminate?) {
        StillLogged(old(log), log, job);
        Note(r);
        next := Some(job);
      }
    }

    /** Cancel the owned job and watch it end. True only if it was seen to end. */
    method CleanUp() returns (done: bool)
      requires owned.Some? && OwnedLog(log, owned.value) && exitCode != 0
      modifies this`replies, this`log, this`state, this`confirmed, this`errors, this`changed
      modifies this`cleanup, this`exitCode, this`failed
      ensures Quiet()
      ensures exitCode != 0 && (failed || exitCode == old(exitCode)) && (old(failed) ==> failed)
      ensures if done then cleanup.Saw? else cleanup == Unconfirmed
      ensures done ==> exists job :: Observed(job) && Terminal(job.state)
    {
      cleanup := Unconfirmed;
      var job: Option<Job> := None;
      var acknowledged := false;
      while true
        invariant Quiet() && cleanup == Unconfirmed && (job.Some? ==> Observed(job.value))
        invariant exitCode != 0 && (failed || exitCode == old(exitCode)) && (old(failed) ==> failed)
        decreases |replies|
      {
        var next, acked, again := Press(job, acknowledged);
        job, acknowledged := next, acked;
        if again {
          continue;
        }
        if job.None? {
          return false;
        }
        if * {
          return false;
        }
        if Terminal(job.value.state) {
          cleanup := Saw(job.value.state);
          return true;
        }
        job := Watch(job.value);
        if job.None? {
          return false;
        }
      }
    }

    /** The exception a reply raises where the client has no use for it. */
    function Raised(r: Reply): (e: Ending)
      ensures e != Finished
    {
      if r.Interrupt? then Stopped else if r.Terminate? then Killed else Problem
    }

    ghost predicate Unowned()
      reads this
    {
      owned.None? && NamesNone(log) && AtMostOnePreview(log) && cleanup == NotRequested
    }

    /** Between the preview and the start, or after it. */
    ghost predicate Working()
      reads this
    {
      owned.Some? && OwnedLog(log, owned.value) && cleanup == NotRequested && exitCode == 1 && !failed && outcome == NotDone
    }

    /** Look at the current job. None to go on, with its root if there is one. */
    method LookAtCurrent() returns (end: Option<Ending>, root: Option<string>)
      requires Fresh()
      modifies this`replies, this`log, this`outcome, this`exitCode
      ensures Unowned() && NoPreview(log)
      ensures end == Some(Finished) ==> outcome == SkippedBusy && exitCode == 0 && BusySeen(log)
      ensures end != Some(Finished) ==> outcome == NotDone && exitCode == 1
    {
      var r := Call(Current);
      end, root := None, None;
      if r.Got? {
        if r.job.identity.None? || !Validates(r.job) {
          end := Some(Problem);
        } else if Busy(r.job.state) {
          outcome, exitCode, end := SkippedBusy, 0, Some(Finished);
          assert log[0] == Exchange(Current, r);
        } else {
          root := Some(r.job.identity.value.root);
        }
      } else if r != Http(404) {
        end := Some(Raised(r));
      }
    }

    /** Ask for a preview and own it if the reply is a valid job for this age and root. */
    method OwnPreview(root: Option<string>) returns (end: Option<Ending>, job: Option<Job>)
      requires Unowned() && NoPreview(log) && outcome == NotDone && exitCode == 1 && !failed && !confirmed
      modifies this`replies, this`log, this`outcome, this`exitCode, this`owned, this`state, this`confirmed, this`errors, this`changed
      ensures AtMostOnePreview(log) && NoStart(log)
      ensures owned.None? ==> Unowned() && end.Some?
      ensures end == Some(Finished) ==> owned.None? && outcome == SkippedBusy && exitCode == 0 && BusySeen(log)
      ensures end != Some(Finished) ==> outcome == NotDone && exitCode == 1
      ensures owned.Some? ==> Working() && owned.value.age == olderThan
      ensures end.None? ==> job.Some? && JustSeen(job.value)
    {
      ghost var before := log;
      var r := Call(Preview);
      end, job := None, None;
      assert forall i :: 0 <= i < |before| ==> log[i] == before[i];
      if r == Http(409) {
        outcome, exitCode, end := SkippedBusy, 0, Some(Finished);
        assert log[|log| - 1] == Exchange(Preview, r);
      } else if !r.Got? {
        end := Some(Raised(r));
      } else if r.job.identity.None? || r.job.identity.value.age != olderThan
                || (root.Some? && r.job.identity.value.root != root.value) {
        end := Some(Problem);
      } else {
        owned := r.job.identity;
        assert log[|before|].request.Preview?;
        var ok := Observe(r.job);
        if ok {
          job := Some(r.job);
        } else {
          end := Some(Problem);
        }
      }
    }

    /** The job is the last reply, valid, and taken over. */
    ghost predicate JustSeen(job: Job)
      reads this
    {
      && owned.Some? && log != [] && log[|log| - 1].reply == Got(job) && Shows(Got(job), owned.value)
      && errors == job.errors && changed == job.changed && confirmed == job.confirmed
    }

    /** Wait for a clean preview to become ready. */
    method AwaitReady(first: Job) returns (end: Option<Ending>)
      requires Working() && NoStart(log) && JustSeen(first)
      modifies this`replies, this`log, this`state, this`confirmed, this`errors, this`changed
      ensures Working() && NoStart(log) && end != Some(Finished)
      ensures end.None? ==> log != [] && StartablePreview(log[|log| - 1].reply, owned.value)
    {
      var job := first;
      while true
        invariant Working() && NoStart(log) && JustSeen(job)
        decreases |replies|
      {
        if * {
          return Some(Problem);
        }
        if job.confirmed || job.hasError || errors != 0 || changed != 0 || job.state !in {Previewing, Ready} {
          return Some(Problem);
        }
        if job.state == Ready {
          return if job.expired then Some(Problem) else None;
        }
        var r, next := Ask(StatusOf(owned.value.id));
        if next.None? {
          return Some(Raised(r));
        }
        job := next.value;
      }
    }

    /** A dry run cancels its preview and reports success only if that is what happened. */
    method FinishDryRun() returns (end: Ending)
      requires Working() && NoStart(log)
      modifies this`replies, this`log, this`state, this`confirmed, this`errors, this`changed
      modifies this`cleanup, this`exitCode, this`failed, this`outcome
      ensures owned.Some? && OwnedLog(log, owned.value) && NoStart(log) && cleanup != NotRequested
      ensures cleanup.Saw? ==> TerminalSeen(log, owned.value)
      ensures exitCode == 0 <==> outcome == DryRun
      ensures outcome == DryRun ==> cleanup.Saw? && CancelSeen(log, owned.value)
      ensures outcome == NotDone || (outcome == DryRun && end == Finished)
      ensures end in {Finished, Problem}
    {
      var ok := CleanUp();
      if !ok {
        return Problem;
      }
      ghost var job :| Observed(job) && Terminal(job.state);
      ghost var i :| 0 <= i < |log| && log[i].reply == Got(job);
      assert Shows(log[i].reply, owned.value);
      if state != Some(Cancelled) || confirmed {
        return Problem;
      }
      if failed {
        return Finished;
      }
      outcome, exitCode := DryRun, 0;
      return Finished;
    }

    /** Send the one start. Where its reply is lost, it is not sent again: the job is asked for. */
    method SendStart() returns (r: Reply, job: Option<Job>)
      requires Working() && NoStart(log) && log != [] && StartablePreview(log[|log| - 1].reply, owned.value)
      modifies this`replies, this`log, this`state, this`confirmed, this`errors, this`changed
      ensures Working() && (job.Some? ==> JustSeen(job.value))
    {
      r := Call(Start(owned.value.id));
      StartExchange(old(log), owned.value, r);
      job := None;
      if r.Http? {
        r, job := Ask(StatusOf(owned.value.id));
      } else if r.Got? {
        var ok := Observe(r.job);
        job := if ok then Some(r.job) else None;
      }
    }

    /** Start the owned preview and watch it complete. */
    method Prune() returns (end: Ending)
      requires Working() && NoStart(log) && log != [] && StartablePreview(log[|log| - 1].reply, owned.value)
      modifies this`replies, this`log, this`state, this`confirmed, this`errors, this`changed, this`exitCode, this`outcome
      ensures owned.Some? && OwnedLog(log, owned.value) && cleanup == NotRequested
      ensures exitCode == 0 <==> end == Finished
      ensures end == Finished ==> outcome == Pruned && log != [] && CleanCompletion(log[|log| - 1].reply, owned.value)
      ensures end != Finished ==> outcome == NotDone
    {
      var r, job := SendStart();
      while job.Some?
        invariant Working() && (job.Some? ==> JustSeen(job.value))
        decreases |replies|, if job.Some? then 1 else 0
      {
        if * {
          return Problem;
        }
        var j := job.value;
        if j.hasError || !j.confirmed || j.state !in {Running, Completed} {
          return Problem;
        }
        if j.state == Completed {
          if errors != 0 || changed != 0 {
            return Problem;
          }
          outcome, exitCode := Pruned, 0;
          return Finished;
        }
        r, job := Ask(StatusOf(owned.value.id));
      }
      return Raised(r);
    }

    /** The part of the run that an exception may leave. */
    method Work() returns (end: Ending)
      requires Fresh()
      modifies this
      ensures AtMostOnePreview(log) && (owned.None? ==> Unowned())
      ensures owned.Some? ==> OwnedLog(log, owned.value) && (dryRun ==> NoStart(log))
      ensures cleanup.Saw? ==> owned.Some? && TerminalSeen(log, owned.value)
      ensures exitCode == 0 <==> outcome in {SkippedBusy, DryRun, Pruned}
      ensures outcome != CancelUnconfirmed && (end in {Stopped, Killed} ==> exitCode != 0)
      ensures outcome == SkippedBusy ==> owned.None? && BusySeen(log)
      ensures outcome == DryRun ==> owned.Some? && dryRun && CancelSeen(log, owned.value)
      ensures outcome == Pruned ==> owned.Some? && !dryRun && log != [] && CleanCompletion(log[|log| - 1].reply, owned.value)
      ensures exitCode == 0 && owned.Some? ==> cleanup != Unconfirmed
    {
      var stop, root := LookAtCurrent();
      if stop.Some? {
        return stop.value;
      }
      var job: Option<Job>;
      stop, job := OwnPreview(root);
      if stop.Some? {
        return stop.value;
      }
      stop := AwaitReady(job.value);
      if stop.Some? {
        return stop.value;
      }
      if dryRun {
        end := FinishDryRun();
      } else {
        end := Prune();
      }
    }

    /** Cancel what a failed run owns. */
    method CancelAfterFailure()
      requires owned.Some? && OwnedLog(log, owned.value) && exitCode != 0
      modifies this
      ensures owned == old(owned) && OwnedLog(log, owned.value) && (old(NoStart(log)) ==> NoStart(log))
      ensures exitCode != 0 && outcome in {old(outcome), CancelUnconfirmed}
      ensures TerminalSeen(log, owned.value) || (outcome == CancelUnconfirmed && cleanup == Unconfirmed)
    {
      var done := CleanUp();
      if done {
        ghost var job :| Observed(job) && Terminal(job.state);
        ghost var i :| 0 <= i < |log| && log[i].reply == Got(job);
        assert Shows(log[i].reply, owned.value);
      } else {
        outcome := CancelUnconfirmed;
      }
    }

    /** The whole run, cleanup included. `argumentsOk` is false for a bad age or limit. */
    method RunScheduled(argumentsOk: bool)
      requires Fresh()
      modifies this
      ensures AtMostOnePreview(log) && (owned.None? ==> NamesNone(log))
      ensures owned.Some? ==> OwnedLog(log, owned.value) && (dryRun ==> NoStart(log))
      ensures exitCode == 0 <==> outcome in {SkippedBusy, DryRun, Pruned}
      ensures outcome == SkippedBusy ==> owned.None? && BusySeen(log)
      ensures outcome == DryRun ==> owned.Some? && dryRun && CancelSeen(log, owned.value)
      ensures outcome == Pruned ==> owned.Some? && !dryRun && log != [] && CleanCompletion(log[|log| - 1].reply, owned.value)
      ensures exitCode != 0 && owned.Some? ==> TerminalSeen(log, owned.value) || outcome == CancelUnconfirmed
      ensures !argumentsOk ==> log == [] && exitCode == 1
    {
      if !argumentsOk {
        failed := true;
        return;
      }
      var end := Work();
      match end {
        case Stopped => failed, exitCode := true, 130;
        case Killed => failed, exitCode := true, 143;
        case Problem => failed := true;
        case Finished =>
      }
      if exitCode != 0 && owned.Some? && cleanup == NotRequested {
        CancelAfterFailure();
      }
      if cleanup == Unconfirmed {
        outcome := CancelUnconfirmed;
      }
    }
  }
}
