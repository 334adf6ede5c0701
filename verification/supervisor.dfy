/** The supervisor of client.php: it starts the worker as a child process,
    turns the worker's SIGUSR1/SIGUSR2 into a download/upload intent, and on
    each one-second tick carries out the intent against the gene store.

    Signals are events delivered at given points of a tick; the HTTP posts,
    the exchange-file read and write, the signals sent to the child, the wait
    for it and the exit are effects appended to a trace. What the outside world
    answers (the reply of each post, the content of the exchange file, the
    signals that arrive while the supervisor sleeps or works) is the input
    `Round` of a tick. */
module Supervisor {
  import opened Options
  import GeneStore

  /** The `$state` global: 'noop', 'download' or 'upload'. */
  datatype Intent = NoOp | Download | Upload

  datatype Signal = SIGTERM | SIGINT | SIGUSR1 | SIGUSR2 | OtherSignal(signo: int)

  /** The two requests the supervisor posts. */
  datatype Request = GetGenes | PutGenes(data: string)

  datatype Effect =
    | Spawn                    // fork and exec the worker with the parent's pid
    | InstallHandlers          // async signals on, handlers for TERM, INT, USR1, USR2
    | Post(request: Request)
    | WriteFile(content: string)
    | ReadFile
    | Kill(signal: Signal)     // a signal sent to the child
    | WaitChild
    | Exit(status: int)

  /** The supervisor's globals and what it has done so far. */
  datatype Client = Client(running: bool, intent: Intent, trace: seq<Effect>)

  /** What the world does during one tick: the signals arriving during the
      sleep, during the download branch and during the upload branch, the
      replies to the two posts (None is a failed request) and the content of
      the exchange file when it is read. */
  datatype Round = Round(
    duringSleep: seq<Signal>,
    duringDownload: seq<Signal>,
    duringUpload: seq<Signal>,
    getReply: Option<string>,
    fileContent: string,
    putReply: Option<string>)

  /** The form fields a request is encoded into. */
  function Form(req: Request): (f: GeneStore.Form)
    ensures f.todo.Some? && f.todo.value == (if req.GetGenes? then "get" else "put")
    ensures req.PutGenes? ==> f.data == Some(req.data)
  {
    match req
    case GetGenes => GeneStore.Form(Some("get"), None)
    case PutGenes(data) => GeneStore.Form(Some("put"), Some(data))
  }

  /** Both requests of the supervisor reach a handling branch of the store,
      and an upload submits exactly the content it read. */
  lemma {:induction false} RequestsAreHandled(req: Request)
    ensures GeneStore.Dispatch(Form(req)) != GeneStore.Reject
    ensures req.GetGenes? <==> GeneStore.Dispatch(Form(req)) == GeneStore.Fetch
    ensures req.PutGenes? ==> GeneStore.Dispatch(Form(req)) == GeneStore.Submit(req.data)
  {
  }

  predicate Stops(sig: Signal)
  {
    sig == SIGTERM || sig == SIGINT
  }

  /** sighandler: TERM and INT clear `running`, USR1 and USR2 set the
      intent, and nothing is sent or written. */
  function Handled(c: Client, sig: Signal): (d: Client)
    ensures d.trace == c.trace
    ensures d.running <==> c.running && !Stops(sig)
    ensures d.intent == LastIntent(c.intent, [sig])
  {
    match sig
    case SIGTERM => c.(running := false)
    case SIGINT => c.(running := false)
    case SIGUSR1 => c.(intent := Download)
    case SIGUSR2 => c.(intent := Upload)
    case OtherSignal(_) => c
  }

  /** sighandler run on each signal of `sigs` in turn. Handling signals only
      writes to the log, so the trace does not change; the supervisor keeps
      running exactly when it was running and no TERM or INT arrived. */
  function HandledAll(c: Client, sigs: seq<Signal>): (d: Client)
    ensures d.trace == c.trace
    ensures d.running <==> c.running && forall i :: 0 <= i < |sigs| ==> !Stops(sigs[i])
    decreases |sigs|
  {
    if |sigs| == 0 then c
    else
      var d := HandledAll(Handled(c, sigs[0]), sigs[1..]);
      assert forall i :: 1 <= i < |sigs| ==> sigs[i] == sigs[1..][i - 1];
      d
  }

  /** The intent left by the signals, read backwards: the last USR1 or USR2
      decides; with neither, the intent is what it was. */
  function LastIntent(initial: Intent, sigs: seq<Signal>): Intent
  {
    if |sigs| == 0 then initial
    else match sigs[|sigs| - 1]
      case SIGUSR1 => Download
      case SIGUSR2 => Upload
      case _ => LastIntent(initial, sigs[..|sigs| - 1])
  }

  lemma {:induction false} HandledAllSnoc(c: Client, sigs: seq<Signal>, sig: Signal)
    ensures HandledAll(c, sigs + [sig]) == Handled(HandledAll(c, sigs), sig)
    decreases |sigs|
  {
    if |sigs| > 0 {
      assert (sigs + [sig])[1..] == sigs[1..] + [sig];
      HandledAllSnoc(Handled(c, sigs[0]), sigs[1..], sig);
    }
  }

  /** The last download/upload signal wins, overwriting any intent not yet
      consumed; stop and other signals leave the intent alone. */
  lemma {:induction false} LastSignalWins(c: Client, sigs: seq<Signal>)
    ensures HandledAll(c, sigs).intent == LastIntent(c.intent, sigs)
  {
    if |sigs| > 0 {
      var front := sigs[..|sigs| - 1];
      assert sigs == front + [sigs[|sigs| - 1]];
      HandledAllSnoc(c, front, sigs[|sigs| - 1]);
      LastSignalWins(c, front);
    }
  }

  /** post: one request effect; a failed request clears `running`. */
  function Posted(c: Client, req: Request, reply: Option<string>): (d: Client)
    ensures d.trace == c.trace + [Post(req)] && d.intent == c.intent
    ensures d.running <==> c.running && reply.Some?
  {
    c.(trace := c.trace + [Post(req)], running := c.running && reply.Some?)
  }

  /** What file_put_contents writes for a reply: a failed request writes the
      empty file. */
  function Body(reply: Option<string>): string
  {
    if reply.Some? then reply.value else ""
  }

  /** The download branch: get, write the reply to the exchange file, tell
      the child with SIGUSR1. */
  function Downloaded(c: Client, r: Round): (d: Client)
    ensures d.trace == c.trace + DownloadEffects(r)
    ensures d.running <==> c.running && r.getReply.Some? && forall i :: 0 <= i < |r.duringDownload| ==> !Stops(r.duringDownload[i])
    ensures d.intent == LastIntent(c.intent, r.duringDownload)
  {
    var p := Posted(c, GetGenes, r.getReply);
    LastSignalWins(p.(trace := p.trace + [WriteFile(Body(r.getReply)), Kill(SIGUSR1)]), r.duringDownload);
    HandledAll(p.(trace := p.trace + [WriteFile(Body(r.getReply)), Kill(SIGUSR1)]), r.duringDownload)
  }

  /** The upload branch: read the exchange file, put its content, tell the
      child with SIGUSR2. */
  function Uploaded(c: Client, r: Round): (d: Client)
    ensures d.trace == c.trace + UploadEffects(r)
    ensures d.running <==> c.running && r.putReply.Some? && forall i :: 0 <= i < |r.duringUpload| ==> !Stops(r.duringUpload[i])
    ensures d.intent == LastIntent(c.intent, r.duringUpload)
  {
    var p := Posted(c.(trace := c.trace + [ReadFile]), PutGenes(r.fileContent), r.putReply);
    LastSignalWins(p.(trace := p.trace + [Kill(SIGUSR2)]), r.duringUpload);
    HandledAll(p.(trace := p.trace + [Kill(SIGUSR2)]), r.duringUpload)
  }

  /** One pass of the loop body: sleep, the download branch if the intent is
      download, the upload branch if it is then upload, and the reset. */
  function Ticked(c: Client, r: Round): (d: Client)
    ensures d.intent == NoOp
    ensures c.trace <= d.trace
    ensures d.running ==> c.running
  {
    var s := HandledAll(c, r.duringSleep);
    var t := if s.intent == Download then Downloaded(s, r) else s;
    var u := if t.intent == Upload then Uploaded(t, r) else t;
    u.(intent := NoOp)
  }

  /** The effects of a download and of an upload. */
  function DownloadEffects(r: Round): seq<Effect>
  {
    [Post(GetGenes), WriteFile(Body(r.getReply)), Kill(SIGUSR1)]
  }

  function UploadEffects(r: Round): seq<Effect>
  {
    [ReadFile, Post(PutGenes(r.fileContent)), Kill(SIGUSR2)]
  }

  /** The effects of one tick, by the intent after the sleep: none for no-op;
      post, write, SIGUSR1 for a download, followed by the upload too when a
      SIGUSR2 was the last download/upload signal during the download; read,
      put of exactly that content, SIGUSR2 for an upload. */
  lemma {:induction false} TickEffects(c: Client, r: Round)
    ensures var s := HandledAll(c, r.duringSleep);
      Ticked(c, r).trace == c.trace +
        (if s.intent == NoOp then []
         else if s.intent == Upload then UploadEffects(r)
         else if LastIntent(Download, r.duringDownload) == Upload then DownloadEffects(r) + UploadEffects(r)
         else DownloadEffects(r))
  {
    var s := HandledAll(c, r.duringSleep);
    if s.intent == Download {
      var p := Posted(s, GetGenes, r.getReply);
      var q := p.(trace := p.trace + [WriteFile(Body(r.getReply)), Kill(SIGUSR1)]);
      LastSignalWins(q, r.duringDownload);
      assert q.trace == c.trace + DownloadEffects(r);
    }
  }

  /** A failed request does not cut the tick short: a failed get still
      writes the (empty) exchange file and signals the child, and the tick
      ends with `running` false. */
  lemma {:induction false} FailedDownloadFinishesTick(c: Client, r: Round)
    requires HandledAll(c, r.duringSleep).intent == Download && r.getReply == None
    ensures !Ticked(c, r).running
    ensures Ticked(c, r).trace[|c.trace|..|c.trace| + 3] == [Post(GetGenes), WriteFile(""), Kill(SIGUSR1)]
  {
    var s := HandledAll(c, r.duringSleep);
    var t := Downloaded(s, r);
    assert !t.running;
    assert !Uploaded(t, r).running;
    TickEffects(c, r);
    var e := Ticked(c, r).trace;
    assert e[..|c.trace| + 3] == c.trace + DownloadEffects(r);
  }

  /** A failed put still signals the child, and the tick ends with
      `running` false. */
  lemma {:induction false} FailedUploadFinishesTick(c: Client, r: Round)
    requires HandledAll(c, r.duringSleep).intent == Upload && r.putReply == None
    ensures !Ticked(c, r).running
    ensures Ticked(c, r).trace == c.trace + [ReadFile, Post(PutGenes(r.fileContent)), Kill(SIGUSR2)]
  {
    var s := HandledAll(c, r.duringSleep);
    assert !Uploaded(s, r).running;
    TickEffects(c, r);
  }

  /** The loop: ticks while running, over the rounds the world provides. */
  function Looped(c: Client, rounds: seq<Round>): (d: Client)
    ensures c.trace <= d.trace
    ensures d.running ==> c.running
    ensures (c.running && |rounds| > 0) ==> d.intent == NoOp
    decreases |rounds|
  {
    if !c.running || |rounds| == 0 then c
    else Looped(Ticked(c, rounds[0]), rounds[1..])
  }

  /** A failed request ends the loop at its next test: no further round
      adds an effect. */
  lemma {:induction false} FailedRequestEndsLoop(c: Client, r: Round, rest: seq<Round>)
    requires var s := HandledAll(c, r.duringSleep);
      (s.intent == Download && r.getReply == None) || (s.intent == Upload && r.putReply == None)
    requires c.running
    ensures Looped(c, [r] + rest) == Ticked(c, r)
  {
    if HandledAll(c, r.duringSleep).intent == Download {
      FailedDownloadFinishesTick(c, r);
    } else {
      FailedUploadFinishesTick(c, r);
    }
    assert ([r] + rest)[1..] == rest;
  }

  /** The supervisor never sends SIGTERM to the child while it loops. */
  predicate NoChildTermination(effects: seq<Effect>)
  {
    forall i :: 0 <= i < |effects| ==> effects[i] != Kill(SIGTERM)
  }

  lemma {:induction false} LoopNeverTerminatesChild(c: Client, rounds: seq<Round>)
    requires NoChildTermination(c.trace)
    ensures NoChildTermination(Looped(c, rounds).trace)
    decreases |rounds|
  {
    if c.running && |rounds| > 0 {
      var d := Ticked(c, rounds[0]);
      TickEffects(c, rounds[0]);
      assert NoChildTermination(d.trace);
      LoopNeverTerminatesChild(d, rounds[1..]);
    }
  }

  /** The state the loop starts in: child started, handlers installed, then
      the signals that arrived before the first loop test. */
  function Started(early: seq<Signal>): (c: Client)
    ensures c.trace == [Spawn, InstallHandlers]
  {
    HandledAll(Client(true, NoOp, [Spawn, InstallHandlers]), early)
  }

  /** Whether the loop has ended within the given rounds. */
  predicate Stopped(early: seq<Signal>, rounds: seq<Round>)
  {
    !Looped(Started(early), rounds).running
  }

  /** The whole run of client.php: exit 1 when the fork fails; otherwise
      start, loop, and once the loop has ended send TERM to the child, wait
      for it and exit 0. While the loop has not ended the run is still in
      it. */
  function Supervised(forkOk: bool, early: seq<Signal>, rounds: seq<Round>): (t: seq<Effect>)
    ensures |t| >= 1
  {
    if !forkOk then [Exit(1)]
    else
      var d := Looped(Started(early), rounds);
      if d.running then d.trace else d.trace + [Kill(SIGTERM), WaitChild, Exit(0)]
  }

  /** A failed fork exits with status 1 before any handler is installed or
      any signal sent. */
  lemma {:induction false} ForkFailureExitsAtOnce(early: seq<Signal>, rounds: seq<Round>)
    ensures Supervised(false, early, rounds) == [Exit(1)]
    ensures forall i :: 0 <= i < |Supervised(false, early, rounds)| ==>
      Supervised(false, early, rounds)[i] != InstallHandlers && !Supervised(false, early, rounds)[i].Kill?
  {
  }

  /** Once the loop ends the child receives SIGTERM exactly once, followed
      by one wait; while it runs the child is never sent SIGTERM. */
  lemma {:induction false} ShutdownTerminatesChildOnce(early: seq<Signal>, rounds: seq<Round>)
    ensures var t := Supervised(true, early, rounds);
      Stopped(early, rounds) <==> exists i :: 0 <= i < |t| && t[i] == Kill(SIGTERM)
    ensures var t := Supervised(true, early, rounds);
      Stopped(early, rounds) ==>
        t[|t| - 3..] == [Kill(SIGTERM), WaitChild, Exit(0)]
        && forall i :: 0 <= i < |t| && t[i] == Kill(SIGTERM) ==> i == |t| - 3
  {
    var c := Started(early);
    assert NoChildTermination(c.trace);
    LoopNeverTerminatesChild(c, rounds);
    var d := Looped(c, rounds);
    var t := Supervised(true, early, rounds);
    if !d.running {
      assert t == d.trace + [Kill(SIGTERM), WaitChild, Exit(0)];
      assert t[|t| - 3] == Kill(SIGTERM);
    }
  }

  /** The supervisor process: its globals and its trace. */
  class Supervisor {
    var running: bool
    var intent: Intent
    var trace: seq<Effect>

    function Snapshot(): Client
      reads this
    {
      Client(running, intent, trace)
    }

    /** The globals as the script sets them: running, intent 'noop'. */
    constructor ()
      ensures Snapshot() == Client(true, NoOp, [])
    {
      running := true;
      intent := NoOp;
      trace := [];
    }

    /** Start the child and install the handlers. */
    method Launch()
      modifies this
      ensures Snapshot() == old(Snapshot()).(trace := old(trace) + [Spawn, InstallHandlers])
    {
      trace := trace + [Spawn];
      trace := trace + [InstallHandlers];
    }

    /** sighandler */
    method SigHandler(sig: Signal)
      modifies this
      ensures Snapshot() == Handled(old(Snapshot()), sig)
    {
      match sig
      case SIGTERM => running := false;
      case SIGINT => running := false;
      case SIGUSR1 => intent := Download;
      case SIGUSR2 => intent := Upload;
      case OtherSignal(_) =>
    }

    /** Handle the signals that arrive, one after another. */
    method Deliver(sigs: seq<Signal>)
      modifies this
      ensures Snapshot() == HandledAll(old(Snapshot()), sigs)
    {
      var i := 0;
      while i < |sigs|
        invariant 0 <= i <= |sigs|
        invariant HandledAll(old(Snapshot()), sigs) == HandledAll(Snapshot(), sigs[i..])
      {
        assert sigs[i..][1..] == sigs[i + 1..];
        SigHandler(sigs[i]);
        i := i + 1;
      }
    }

    /** post: the request is made; a failed one clears `running`. The reply
        is returned as it came. */
    method PostRequest(req: Request, reply: Option<string>) returns (result: Option<string>)
      modifies this
      ensures result == reply
      ensures Snapshot() == Posted(old(Snapshot()), req, reply)
    {
      trace := trace + [Post(req)];
      result := reply;
      if result == None {
        running := false;
      }
    }

    /** One pass of the loop body. */
    method Tick(r: Round)
      modifies this
      ensures Snapshot() == Ticked(old(Snapshot()), r)
    {
      Deliver(r.duringSleep);
      if intent == Download {
        var data := PostRequest(GetGenes, r.getReply);
        trace := trace + [WriteFile(Body(data)), Kill(SIGUSR1)];
        Deliver(r.duringDownload);
      }
      if intent == Upload {
        trace := trace + [ReadFile];
        var _ := PostRequest(PutGenes(r.fileContent), r.putReply);
        trace := trace + [Kill(SIGUSR2)];
        Deliver(r.duringUpload);
      }
      intent := NoOp;
    }

    /** while ($running): one tick per round until `running` is false or the
        rounds run out. */
    method RunLoop(rounds: seq<Round>)
      modifies this
      ensures Snapshot() == Looped(old(Snapshot()), rounds)
    {
      var i := 0;
      while running && i < |rounds|
        invariant 0 <= i <= |rounds|
        invariant Looped(old(Snapshot()), rounds) == Looped(Snapshot(), rounds[i..])
      {
        assert rounds[i..][1..] == rounds[i + 1..];
        Tick(rounds[i]);
        i := i + 1;
      }
    }

    /** Send TERM to the child, wait for it, and end the script. */
    method Shutdown()
      modifies this
      ensures Snapshot() == old(Snapshot()).(trace := old(trace) + [Kill(SIGTERM), WaitChild, Exit(0)])
    {
      trace := trace + [Kill(SIGTERM)];
      trace := trace + [WaitChild];
      trace := trace + [Exit(0)];
    }
  }

  /** The script from the fork on. */
  method Supervise(forkOk: bool, early: seq<Signal>, rounds: seq<Round>) returns (trace: seq<Effect>)
    ensures trace == Supervised(forkOk, early, rounds)
  {
    if !forkOk {
      return [Exit(1)];
    }
    var sup := new Supervisor();
    sup.Launch();
    assert sup.Snapshot() == Client(true, NoOp, [Spawn, InstallHandlers]);
    sup.Deliver(early);
    assert sup.Snapshot() == Started(early);
    sup.RunLoop(rounds);
    assert sup.Snapshot() == Looped(Started(early), rounds);
    if !sup.running {
      sup.Shutdown();
    }
    trace := sup.trace;
  }
}
