/**
 * The key listener: the events drained from the input source at the start
 * of every frame, and the four hold flags they drive.
 */
module Input {
  import opened Prims

  /** The keys the game listens to; every other key is `OtherKey`. */
  datatype Keycode = Z | S | Up | Down | Escape | OtherKey

  /** An input event. `Other` stands for every event kind the game ignores (mouse, window, ...). */
  datatype Event =
    | Quit
    | KeyDown(keycode: Option<Keycode>)
    | KeyUp(keycode: Option<Keycode>)
    | Other

  /** Whether each movement key is currently held down. */
  datatype Flags = Flags(upP1: bool, downP1: bool, upP2: bool, downP2: bool)

  const NoneHeld := Flags(false, false, false, false)

  /** Names for the four hold flags. */
  datatype Control = HoldUpP1 | HoldDownP1 | HoldUpP2 | HoldDownP2

  function Get(f: Flags, c: Control): bool {
    match c
    case HoldUpP1 => f.upP1
    case HoldDownP1 => f.downP1
    case HoldUpP2 => f.upP2
    case HoldDownP2 => f.downP2
  }

  /** The key bindings: Z/S move player 1, the Up/Down arrows move player 2. */
  function Binding(k: Keycode): Option<Control> {
    match k
    case Z => Some(HoldUpP1)
    case S => Some(HoldDownP1)
    case Up => Some(HoldUpP2)
    case Down => Some(HoldDownP2)
    case _ => None
  }

  /** The events that end the game loop: a quit request or Escape pressed. */
  predicate EndsLoop(e: Event) {
    e == Quit || e == KeyDown(Some(Escape))
  }

  /**
   * What `e` writes into hold flag `c`, if anything: pressing a bound key
   * writes true into its flag, releasing it writes false.
   */
  function Writes(e: Event, c: Control): Option<bool> {
    match e
    case KeyDown(Some(k)) => if Binding(k) == Some(c) then Some(true) else None
    case KeyUp(Some(k)) => if Binding(k) == Some(c) then Some(false) else None
    case _ => None
  }

  /** The result of handling one event: stop the loop, or carry on with these flags. */
  datatype Handled = Stop | Continue(flags: Flags)

  /**
   * One arm of the event match. The arms are tried in the order the game
   * lists them; anything no arm names is ignored.
   */
  function HandleEvent(f: Flags, e: Event): (r: Handled)
    ensures r.Stop? <==> EndsLoop(e)
    ensures r.Continue? ==> forall c :: Get(r.flags, c) == Writes(e, c).GetOr(Get(f, c))
  {
    match e
    case Quit => Stop
    case KeyDown(Some(Escape)) => Stop
    case KeyDown(Some(Z)) => Continue(f.(upP1 := true))
    case KeyDown(Some(S)) => Continue(f.(downP1 := true))
    case KeyDown(Some(Up)) => Continue(f.(upP2 := true))
    case KeyDown(Some(Down)) => Continue(f.(downP2 := true))
    case KeyUp(Some(Z)) => Continue(f.(upP1 := false))
    case KeyUp(Some(S)) => Continue(f.(downP1 := false))
    case KeyUp(Some(Up)) => Continue(f.(upP2 := false))
    case KeyUp(Some(Down)) => Continue(f.(downP2 := false))
    case _ => Continue(f)
  }

  /** The outcome of draining one frame's events. */
  datatype Polled =
    | Drained(flags: Flags)   // every event handled, these are the flags now
    | Stopped(at: nat)        // the event at this index ended the loop

  /** Drains `evs` in order, stopping at the first event that ends the loop. */
  function Poll(f: Flags, evs: seq<Event>): (r: Polled)
    ensures r.Drained? <==> forall i :: 0 <= i < |evs| ==> !EndsLoop(evs[i])
    ensures r.Stopped? ==> r.at < |evs| && EndsLoop(evs[r.at])
    ensures r.Stopped? ==> forall i :: 0 <= i < r.at ==> !EndsLoop(evs[i])
    decreases |evs|
  {
    if |evs| == 0 then Drained(f)
    else
      match HandleEvent(f, evs[0])
      case Stop => Stopped(0)
      case Continue(g) =>
        match Poll(g, evs[1..])
        case Drained(h) => Drained(h)
        case Stopped(i) => Stopped(i + 1)
  }

  /**
   * The value the last event of `evs` that touches flag `c` writes into it,
   * if any event does.
   */
  function LastWrite(evs: seq<Event>, c: Control): Option<bool>
    decreases |evs|
  {
    if |evs| == 0 then None
    else match LastWrite(evs[1..], c)
      case Some(v) => Some(v)
      case None => Writes(evs[0], c)
  }

  /**
   * After a full drain, every hold flag holds what the last press or
   * release of its own key wrote, and keeps its old value when no event
   * touched it.
   */
  lemma {:induction false} PollKeepsLastWrite(f: Flags, evs: seq<Event>, c: Control)
    requires Poll(f, evs).Drained?
    ensures Get(Poll(f, evs).flags, c) == LastWrite(evs, c).GetOr(Get(f, c))
    decreases |evs|
  {
    if |evs| > 0 {
      var g := HandleEvent(f, evs[0]).flags;
      PollKeepsLastWrite(g, evs[1..], c);
    }
  }

  /**
   * Nothing after the event that ends the loop is looked at: replacing
   * every later event leaves the outcome unchanged.
   */
  lemma {:induction false} PollIgnoresRest(f: Flags, evs: seq<Event>, rest: seq<Event>)
    requires Poll(f, evs).Stopped?
    ensures Poll(f, evs[..Poll(f, evs).at + 1] + rest) == Poll(f, evs)
    decreases |evs|
  {
    var i := Poll(f, evs).at;
    var evs' := evs[..i + 1] + rest;
    assert evs'[0] == evs[0];
    if i > 0 {
      var g := HandleEvent(f, evs[0]).flags;
      PollIgnoresRest(g, evs[1..], rest);
      assert evs'[1..] == evs[1..][..i] + rest;
    }
  }
}
