/** The donation page (features/CharityAgent.tsx:10-26): an amount and a charity
    chosen while idle, and a donate action that walks a status through three
    timed steps and, at the last one, records the donation in the shared
    memory. The three `setTimeout` callbacks are kept as a queue of pending
    timers; the passage of time is the `FireTimer` step, which runs the timer
    due first. */
module CharityAgent {
  import opened AgentMemory
  import opened AppShell

  /** `'IDLE' | 'CONNECTING' | 'NEGOTIATING' | 'TRANSFERRING' | 'SUCCESS'`. */
  datatype Status = Idle | Connecting | Negotiating | Transferring | Success

  const Charities: seq<string> :=
    ["Code for Kids", "Global Reforestation", "Ocean Cleanup Agent DAO", "Open Source Health"]
  const DefaultCharity: string := "Code for Kids"

  /** The amount buttons. */
  const Amounts: seq<int> := [10, 25, 50, 100]
  const DefaultAmount: int := 25

  /** One scheduled callback: its delay in milliseconds, the status it sets and
      the memory update it makes, if any. */
  datatype Timer = Timer(delay: nat, status: Status, update: Memory)

  /** The update the final step makes: the charity chosen, and the stored total
      (absent counts as 0) plus the amount, both as they were when the donation
      started. */
  function DonationUpdate(memory: Memory, charity: string, amount: int): Memory {
    map[Charity := Str(charity), DonationAmount := Num(NumberOrZero(memory, DonationAmount) + amount)]
  }

  /** The three callbacks `handleDonate` schedules. */
  function Steps(update: Memory): (ts: seq<Timer>)
    ensures |ts| == 3
  {
    [Timer(1500, Negotiating, map[]), Timer(3000, Transferring, map[]), Timer(5000, Success, update)]
  }

  /** The delays strictly increase, so the callbacks fire in the order they were
      scheduled and each pending queue's head is the one due first. */
  lemma StepsInDelayOrder(update: Memory)
    ensures forall i, j :: 0 <= i < j < 3 ==> Steps(update)[i].delay < Steps(update)[j].delay
  {
  }

  /** The status each step moves to: connecting, negotiating, transferring,
      success, in that order. */
  function Advance(s: Status): Status {
    match s
    case Connecting => Negotiating
    case Negotiating => Transferring
    case Transferring => Success
    case Idle => Idle
    case Success => Success
  }

  /** The timers still pending in each status of a donation that captured `update`. */
  function Pending(s: Status, update: Memory): (ts: seq<Timer>)
    ensures ts != [] <==> s in {Connecting, Negotiating, Transferring}
  {
    match s
    case Connecting => Steps(update)
    case Negotiating => Steps(update)[1..]
    case Transferring => Steps(update)[2..]
    case Idle => []
    case Success => []
  }

  /** Firing the head of the queue in a status with pending timers moves to the
      next status and leaves exactly the timers of that status. */
  lemma PendingHead(s: Status, update: Memory)
    requires s in {Connecting, Negotiating, Transferring}
    ensures Pending(s, update)[0].status == Advance(s)
    ensures Pending(s, update)[1..] == Pending(Advance(s), update)
    ensures Pending(s, update)[0].update == (if s == Transferring then update else map[])
    ensures forall t :: t in Pending(s, update) ==> Pending(s, update)[0].delay <= t.delay
  {
  }

  /** The stored total grows by exactly the amount and the charity becomes the
      chosen one. */
  lemma DonationAccumulates(memory: Memory, charity: string, amount: int)
    ensures var r := Merge(memory, DonationUpdate(memory, charity, amount));
      NumberOrZero(r, DonationAmount) == NumberOrZero(memory, DonationAmount) + amount &&
      r[Charity] == Str(charity) &&
      (forall k :: k in memory && k !in {Charity, DonationAmount} ==> r[k] == memory[k])
  {
  }

  class Agent {
    var amount: int
    var selectedCharity: string
    var status: Status
    /** The callbacks scheduled and not yet run, in the order they fire. */
    var pending: seq<Timer>
    /** The update the running donation's last callback will make. */
    ghost var captured: Memory
    const app: App

    /** The amount is one the buttons offer; the pending timers are exactly the
        ones left in the current status; while a donation runs, its captured
        update is the one computed from the current choices and memory. */
    ghost predicate Valid()
      reads this, app
    {
      amount in Amounts &&
      pending == Pending(status, captured) &&
      (status in {Connecting, Negotiating, Transferring} ==>
         captured == DonationUpdate(app.memory, selectedCharity, amount))
    }

    /** The initial component state (features/CharityAgent.tsx:11-13): 25, the
        remembered charity or "Code for Kids", idle. */
    constructor (app: App)
      ensures Valid()
      ensures amount == DefaultAmount && status == Idle && pending == []
      ensures selectedCharity == StringOr(app.memory, Charity, DefaultCharity)
      ensures this.app == app
    {
      amount := DefaultAmount;
      selectedCharity := StringOr(app.memory, Charity, DefaultCharity);
      status := Idle;
      pending := [];
      captured := map[];
      this.app := app;
    }

    /** An amount button; the buttons are shown only while idle. */
    method SelectAmount(value: int)
      requires Valid()
      requires value in Amounts
      modifies this`amount
      ensures Valid()
      ensures amount == (if status == Idle then value else old(amount))
    {
      if status == Idle {
        amount := value;
      }
    }

    /** A charity tile; the tiles are shown only while idle. */
    method SelectCharity(c: string)
      requires Valid()
      requires c in Charities
      modifies this`selectedCharity
      ensures Valid()
      ensures selectedCharity == (if status == Idle then c else old(selectedCharity))
    {
      if status == Idle {
        selectedCharity := c;
      }
    }

    /** `handleDonate`, whose button is shown only while idle: the status becomes
        connecting and the three callbacks are scheduled, the last one carrying
        the update computed from the current choices and memory. */
    method Donate()
      requires Valid()
      modifies this`status, this`pending, this`captured
      ensures Valid()
      ensures old(status) == Idle ==>
        status == Connecting &&
        pending == Steps(DonationUpdate(app.memory, selectedCharity, amount))
      ensures old(status) != Idle ==> status == old(status) && pending == old(pending)
    {
      if status == Idle {
        var update := DonationUpdate(app.memory, selectedCharity, amount);
        status := Connecting;
        pending := Steps(update);
        captured := update;
      }
    }

    /** Time passes until the next callback is due, which then runs: it sets its
        status and, for the last one, merges the captured update into the
        shared memory. With nothing pending nothing happens. */
    method FireTimer()
      requires Valid()
      modifies this`status, this`pending, app
      ensures Valid()
      ensures old(pending) == [] ==> status == old(status) && pending == [] && app.memory == old(app.memory)
      ensures old(pending) != [] ==>
        status == Advance(old(status)) && pending == old(pending)[1..] &&
        (forall t :: t in old(pending) ==> old(pending)[0].delay <= t.delay)
      ensures old(status) == Transferring ==>
        status == Success &&
        NumberOrZero(app.memory, DonationAmount) == NumberOrZero(old(app.memory), DonationAmount) + amount &&
        Charity in app.memory && app.memory[Charity] == Str(selectedCharity)
      ensures old(status) != Transferring ==> app.memory == old(app.memory)
      ensures app.view == old(app.view)
    {
      if pending == [] {
        return;
      }
      PendingHead(status, captured);
      var t := pending[0];
      status := t.status;
      pending := pending[1..];
      if t.status == Success {
        DonationAccumulates(app.memory, selectedCharity, amount);
        app.UpdateMemory(t.update);
      }
    }

    /** "Donate again", shown only on success: back to idle. */
    method DonateAgain()
      requires Valid()
      modifies this`status
      ensures Valid()
      ensures status == (if old(status) == Success then Idle else old(status))
    {
      if status == Success {
        status := Idle;
      }
    }
  }

  /** A full donation from idle: after the donate click and three timer steps
      the status has passed through negotiating and transferring to success
      and the stored total has grown by the amount. */
  method DonationRun(agent: Agent) returns (trace: seq<Status>)
    requires agent.Valid() && agent.status == Idle
    modifies agent, agent.app
    ensures trace == [Connecting, Negotiating, Transferring, Success]
    ensures agent.status == Success && agent.pending == []
    ensures NumberOrZero(agent.app.memory, DonationAmount) ==
      NumberOrZero(old(agent.app.memory), DonationAmount) + agent.amount
    ensures Charity in agent.app.memory && agent.app.memory[Charity] == Str(agent.selectedCharity)
  {
    agent.Donate();
    trace := [agent.status];
    agent.FireTimer();
    trace := trace + [agent.status];
    agent.FireTimer();
    trace := trace + [agent.status];
    agent.FireTimer();
    trace := trace + [agent.status];
  }
}
