/**
 * The sleeping-barber salon monitor (class PcoSalon of the fifth lab).
 *
 * Every method of the monitor is one atomic step here, including the stretches
 * where its animation helpers release the mutex. A wait on a condition
 * variable becomes the guard of the step it protects, and a notify changes no
 * state. The first half of the module describes the
 * monitor's fields as one value and its steps as functions on that value; the
 * class PcoSalon at the end updates the same fields in place and is proved
 * against those functions.
 */
module Salon {
  import opened Wrappers

  /** Number of values of the source's 32-bit `unsigned`. */
  const U32: nat := 0x1_0000_0000

  /** The monitor's fields. `clients` holds the waiting clients and the one
      being served, in arrival order; its first element is the one served. */
  datatype SalonState = SalonState(
    nbWaitingChairs: nat,
    nbWorkingChairs: nat,
    capacity: nat,
    nbWaitingChairsOccupied: nat,
    barberSleeping: bool,
    clientSupported: bool,
    inService: bool,
    clients: seq<nat>)

  /** What every reachable state satisfies: the unsigned ranges, the capacity
      as the sum of waiting and working chairs (an unsigned sum, which wraps),
      and a queue no longer than that capacity. */
  predicate Inv(s: SalonState) {
    && s.nbWaitingChairs < U32
    && s.nbWorkingChairs == 1
    && s.capacity == (s.nbWaitingChairs + s.nbWorkingChairs) % U32
    && s.nbWaitingChairsOccupied < U32
    && |s.clients| <= s.capacity
  }

  /** The state the constructor builds from the number of waiting chairs. */
  function Initial(nbWaitingChairs: nat): (s: SalonState)
    requires nbWaitingChairs < U32
    ensures Inv(s)
    ensures nbWaitingChairs + 1 < U32 ==> s.capacity == nbWaitingChairs + 1
    ensures s.clients == [] && s.nbWaitingChairsOccupied == 0
    ensures !s.barberSleeping && !s.clientSupported && s.inService
  {
    SalonState(nbWaitingChairs, 1, (nbWaitingChairs + 1) % U32, 0, false, false, true, [])
  }

  /** Outcome of accessSalon: the new state, the returned flag, and the waiting
      chair handed to the seating animation, if any. */
  datatype Entry = Entry(state: SalonState, admitted: bool, chair: Option<nat>)

  /** accessSalon: refuse a full salon, otherwise queue the client at the back,
      wake a sleeping barber and, when someone is ahead, give the client the
      next waiting chair in rotation. */
  function Access(s: SalonState, clientId: nat): (r: Entry)
    requires Inv(s)
    ensures Inv(r.state)
    ensures r.admitted <==> |s.clients| < s.capacity
    ensures !r.admitted ==> r.state == s && r.chair == None
    ensures r.admitted ==> r.state.clients == s.clients + [clientId] && !r.state.barberSleeping
    ensures r.admitted ==>
              r.state == s.(clients := s.clients + [clientId], barberSleeping := false,
                            nbWaitingChairsOccupied := r.state.nbWaitingChairsOccupied)
    ensures r.chair.Some? <==> r.admitted && s.clients != [] && s.clients[0] != clientId
    ensures r.chair.Some? ==>
              && s.nbWaitingChairs > 0
              && r.chair.value == s.nbWaitingChairsOccupied % s.nbWaitingChairs
              && r.chair.value < s.nbWaitingChairs
              && r.state.nbWaitingChairsOccupied == (s.nbWaitingChairsOccupied + 1) % U32
    ensures r.chair.None? ==> r.state.nbWaitingChairsOccupied == s.nbWaitingChairsOccupied
    ensures s.nbWaitingChairs == 0 ==> r.chair.None?
  {
    if |s.clients| == s.capacity then
      Entry(s, false, None)
    else
      var queued := s.(clients := s.clients + [clientId], barberSleeping := false);
      if queued.clients[0] != clientId then
        Entry(queued.(nbWaitingChairsOccupied := (s.nbWaitingChairsOccupied + 1) % U32),
              true, Some(s.nbWaitingChairsOccupied % s.nbWaitingChairs))
      else
        Entry(queued, true, None)
  }

  /** The steps that change the monitor's state. pickNextClient, getNbClient
      and isInService only read it. */
  datatype Event =
    | Enter(clientId: nat)  // accessSalon
    | Sit(clientId: nat)    // goForHairCut, once its wait is over
    | Beautify              // beautifyClient
    | Sleep                 // goToSleep, up to its wait
    | Close                 // endService

  /** When a step may run: the client sits only once it is at the front, and
      the barber pops the front only of a non-empty queue. */
  predicate Enabled(s: SalonState, e: Event) {
    match e
    case Sit(id) => s.clients != [] && s.clients[0] == id
    case Beautify => s.clients != []
    case _ => true
  }

  function Apply(s: SalonState, e: Event): (t: SalonState)
    requires Inv(s) && Enabled(s, e)
    ensures Inv(t)
    ensures t.capacity == s.capacity && t.nbWaitingChairs == s.nbWaitingChairs
    ensures e.Sit? ==> t == s.(clientSupported := true)
    ensures e.Beautify? ==> t == s.(clientSupported := false, clients := s.clients[1..])
    ensures e.Sleep? ==> t == s.(barberSleeping := true)
    ensures e.Close? ==> t == s.(inService := false)
  {
    match e
    case Enter(id) => Access(s, id).state
    case Sit(_) => s.(clientSupported := true)
    case Beautify => s.(clientSupported := false, clients := s.clients[1..])
    case Sleep => s.(barberSleeping := true)
    case Close => s.(inService := false)
  }

  /** Every step of `es`, in turn, is enabled. */
  predicate Legal(s: SalonState, es: seq<Event>)
    requires Inv(s)
    decreases |es|
  {
    es == [] || (Enabled(s, es[0]) && Legal(Apply(s, es[0]), es[1..]))
  }

  /** The state after a legal run of steps; the capacity bound holds throughout. */
  function Run(s: SalonState, es: seq<Event>): (t: SalonState)
    requires Inv(s) && Legal(s, es)
    ensures Inv(t) && |t.clients| <= s.capacity
    decreases |es|
  {
    if es == [] then s else Run(Apply(s, es[0]), es[1..])
  }

  /** The client one step lets in: the entering client, if admitted. */
  function AdmittedBy(s: SalonState, e: Event): seq<nat>
    requires Inv(s)
  {
    if e.Enter? && Access(s, e.clientId).admitted then [e.clientId] else []
  }

  /** The client one step serves: the front client, if the barber beautifies. */
  function ServedBy(s: SalonState, e: Event): seq<nat>
    requires Inv(s) && Enabled(s, e)
  {
    if e.Beautify? then [s.clients[0]] else []
  }

  /** The clients a run lets in, in order of admission. */
  function Admitted(s: SalonState, es: seq<Event>): seq<nat>
    requires Inv(s) && Legal(s, es)
    decreases |es|
  {
    if es == [] then [] else AdmittedBy(s, es[0]) + Admitted(Apply(s, es[0]), es[1..])
  }

  /** The clients a run serves (pops from the queue), in order of service. */
  function Served(s: SalonState, es: seq<Event>): seq<nat>
    requires Inv(s) && Legal(s, es)
    decreases |es|
  {
    if es == [] then [] else ServedBy(s, es[0]) + Served(Apply(s, es[0]), es[1..])
  }

  /** One step is FIFO: the client it serves, followed by the queue after it,
      is the queue before it followed by the client it admits. */
  lemma StepIsFifo(s: SalonState, e: Event)
    requires Inv(s) && Enabled(s, e)
    ensures ServedBy(s, e) + Apply(s, e).clients == s.clients + AdmittedBy(s, e)
  {
    if e.Beautify? {
      assert s.clients == [s.clients[0]] + s.clients[1..];
    }
  }

  lemma AppendAssociates(a: seq<nat>, b: seq<nat>, c: seq<nat>)
    ensures (a + b) + c == a + (b + c)
  {
  }

  /** FIFO: what a run serves, followed by who is still in the salon, is who
      was there before followed by who was admitted, in the same order. */
  lemma {:induction false} ServiceIsFifo(s: SalonState, es: seq<Event>)
    requires Inv(s) && Legal(s, es)
    ensures Served(s, es) + Run(s, es).clients == s.clients + Admitted(s, es)
    decreases |es|
  {
    if es != [] {
      var t, rest := Apply(s, es[0]), es[1..];
      ServiceIsFifo(t, rest);
      StepIsFifo(s, es[0]);
      var served, admitted := ServedBy(s, es[0]), AdmittedBy(s, es[0]);
      var laterServed, laterAdmitted, queue := Served(t, rest), Admitted(t, rest), Run(t, rest).clients;
      assert Served(s, es) == served + laterServed;
      assert Admitted(s, es) == admitted + laterAdmitted;
      assert Run(s, es).clients == queue;
      AppendAssociates(served, laterServed, queue);
      AppendAssociates(served, t.clients, laterAdmitted);
      AppendAssociates(s.clients, admitted, laterAdmitted);
    }
  }

  /** From a freshly built salon, clients leave in exactly the order they were
      admitted: the served clients are a prefix of the admitted ones, and the
      rest of the admitted clients are still queued. */
  lemma ServedInArrivalOrder(nbWaitingChairs: nat, es: seq<Event>)
    requires nbWaitingChairs < U32 && Legal(Initial(nbWaitingChairs), es)
    ensures Served(Initial(nbWaitingChairs), es) <= Admitted(Initial(nbWaitingChairs), es)
    ensures Admitted(Initial(nbWaitingChairs), es)
            == Served(Initial(nbWaitingChairs), es) + Run(Initial(nbWaitingChairs), es).clients
  {
    var s := Initial(nbWaitingChairs);
    ServiceIsFifo(s, es);
    var served, queued := Served(s, es), Run(s, es).clients;
    assert Admitted(s, es) == served + queued;
    assert (served + queued)[..|served|] == served;
  }

  /** The client that sits on the work chair is the next one the barber serves. */
  lemma SeatedClientIsServedNext(s: SalonState, clientId: nat, es: seq<Event>)
    requires Inv(s) && Legal(s, [Sit(clientId)] + es)
    ensures Served(s, [Sit(clientId)] + es) != [] ==> Served(s, [Sit(clientId)] + es)[0] == clientId
  {
    var run := [Sit(clientId)] + es;
    assert run[0] == Sit(clientId) && Enabled(s, run[0]);
    ServiceIsFifo(s, run);
    var served := Served(s, run);
    if served != [] {
      assert served[0] == (served + Run(s, run).clients)[0];
      assert served[0] == (s.clients + Admitted(s, run))[0];
    }
  }

  /** Admission looks at the queue length only: once the salon is closed, a
      client still gets in whenever there is room, and the salon stays closed. */
  lemma ClosedSalonStillAdmits(s: SalonState, clientId: nat)
    requires Inv(s) && |s.clients| < s.capacity
    ensures var r := Access(Apply(s, Close), clientId);
            && r.admitted
            && r.state.clients == s.clients + [clientId]
            && !r.state.inService
  {
  }

  /** The monitor, with its fields updated in place. */
  class PcoSalon {
    const nbWaitingChairs: nat
    const nbWorkingChairs: nat
    const capacity: nat
    var nbWaitingChairsOccupied: nat
    var barberSleeping: bool
    var clientSupported: bool
    var inService: bool
    var clients: seq<nat>

    function State(): SalonState
      reads this
    {
      SalonState(nbWaitingChairs, nbWorkingChairs, capacity, nbWaitingChairsOccupied,
                 barberSleeping, clientSupported, inService, clients)
    }

    ghost predicate Valid()
      reads this
    {
      Inv(State())
    }

    /** `waitingChairs` is the constructor's `capacity` argument: the number of
        waiting chairs. */
    constructor (waitingChairs: nat)
      requires waitingChairs < U32
      ensures Valid() && State() == Initial(waitingChairs)
      ensures nbWaitingChairs == waitingChairs && nbWorkingChairs == 1
      ensures capacity == (waitingChairs + 1) % U32
      ensures clients == [] && nbWaitingChairsOccupied == 0
      ensures !barberSleeping && !clientSupported && inService
    {
      nbWaitingChairs := waitingChairs;
      nbWorkingChairs := 1;
      capacity := (waitingChairs + 1) % U32;
      nbWaitingChairsOccupied := 0;
      barberSleeping := false;
      clientSupported := false;
      inService := true;
      clients := [];
    }

    /** accessSalon; `chair` is the waiting chair given to the seating animation. */
    method AccessSalon(clientId: nat) returns (admitted: bool, chair: Option<nat>)
      requires Valid()
      modifies this
      ensures Valid()
      ensures Entry(State(), admitted, chair) == Access(old(State()), clientId)
      ensures !admitted ==> unchanged(this)
    {
      if |clients| == capacity {
        return false, None;
      }
      clients := clients + [clientId];
      if barberSleeping {
        barberSleeping := false;  // and the sleeping barber is notified
      }
      chair := None;
      if clients[0] != clientId {
        chair := Some(nbWaitingChairsOccupied % nbWaitingChairs);
        nbWaitingChairsOccupied := (nbWaitingChairsOccupied + 1) % U32;
      }
      admitted := true;
    }

    /** goForHairCut, as far as its state change: the client waits until it is
        at the front (`seated` false, nothing changes) and then marks itself as
        being handled. Its later wait for the end of the haircut changes nothing. */
    method GoForHairCut(clientId: nat) returns (seated: bool)
      requires Valid()
      modifies this
      ensures Valid()
      ensures seated <==> old(clients) != [] && old(clients)[0] == clientId
      ensures seated ==> State() == Apply(old(State()), Sit(clientId)) && clientSupported
      ensures !seated ==> unchanged(this)
    {
      seated := clients != [] && clients[0] == clientId;
      if seated {
        clientSupported := true;
      }
    }

    /** getNbClient: every queued client, the one in the work chair included. */
    method GetNbClient() returns (n: nat)
      ensures n == |clients|
      ensures Valid() ==> n <= capacity
    {
      n := |clients|;
    }

    /** goToSleep, up to its wait: the barber is marked asleep. */
    method GoToSleep()
      requires Valid()
      modifies this
      ensures Valid()
      ensures State() == Apply(old(State()), Sleep) && barberSleeping
    {
      barberSleeping := true;
    }

    /** pickNextClient: wakes every client waiting for its turn (`broadcast`)
        exactly when no client is being handled; it changes no field. */
    method PickNextClient() returns (broadcast: bool)
      ensures broadcast <==> !clientSupported
    {
      broadcast := !clientSupported;
    }

    /** beautifyClient: the client in the work chair leaves the queue. */
    method BeautifyClient()
      requires Valid() && clients != []
      modifies this
      ensures Valid()
      ensures State() == Apply(old(State()), Beautify)
      ensures clients == old(clients)[1..] && !clientSupported
    {
      clientSupported := false;
      clients := clients[1..];
    }

    method IsInService() returns (open: bool)
      ensures open == inService
    {
      open := inService;
    }

    /** endService: closes the salon; the queue and the barber's flag stay. */
    method EndService()
      requires Valid()
      modifies this
      ensures Valid()
      ensures State() == Apply(old(State()), Close)
      ensures !inService && clients == old(clients) && barberSleeping == old(barberSleeping)
    {
      inService := false;
    }
  }

  /** A salon with two waiting chairs holds three clients, the work chair
      included: A, B and C get in, D is refused, and after A is served D gets
      in behind B and C. */
  method Scenario() {
    var salon := new PcoSalon(2);
    var ok, chair := salon.AccessSalon(10);
    assert ok && chair == None;
    ok, chair := salon.AccessSalon(11);
    assert ok && chair == Some(0);
    ok, chair := salon.AccessSalon(12);
    assert ok && chair == Some(1);
    ok, chair := salon.AccessSalon(13);
    assert !ok;
    var seated := salon.GoForHairCut(10);
    assert seated;
    salon.BeautifyClient();
    ok, chair := salon.AccessSalon(13);
    assert ok && chair == Some(0);
    assert salon.clients == [11, 12, 13];
  }
}
