/** The input side of the engine (include/PixelDraw.hh, namespace mrt): the
    per-frame key flags `keys[322]`, the persistent `held_keys[322]`, the
    `running` flag, the event handling in `PixelDraw::run`, `get_key_state`,
    and the ownership handoff of `Texture`.  SDL's event queue is an input:
    each iteration of the main loop receives the batch of events that
    `SDL_PollEvent` would have returned. */
module Mrt {

  /** Size of the key tables. */
  const KeyCount: int := 322

  /** SDL scancodes read by the raycaster (USB HID usage ids). */
  const ScancodeA: int := 4
  const ScancodeD: int := 7
  const ScancodeS: int := 22
  const ScancodeW: int := 26
  const ScancodeSpace: int := 44
  const ScancodeRight: int := 79
  const ScancodeLeft: int := 80

  /** What happened to a key during the current frame. */
  datatype FrameKeyState = FrameKeyState(pressed: bool, released: bool)

  /** What get_key_state reports. */
  datatype KeyState = KeyState(pressed: bool, held: bool, released: bool)

  /** The events the main loop distinguishes; every other SDL event type is
      polled and ignored. */
  datatype Event = Quit | KeyDown(sc: int) | KeyUp(sc: int) | Ignored

  /** Key events index the 322-entry tables without a bounds check, so their
      scancodes must lie below 322. */
  predicate ValidEvent(e: Event)
  {
    (e.KeyDown? || e.KeyUp?) ==> 0 <= e.sc < KeyCount
  }

  predicate ValidEvents(events: seq<Event>)
  {
    forall i :: 0 <= i < |events| ==> ValidEvent(events[i])
  }

  /** The engine's input state as values: keys[], held_keys[] and running. */
  datatype Input = Input(keys: seq<FrameKeyState>, held: seq<bool>, running: bool)

  predicate WellFormed(s: Input)
  {
    |s.keys| == KeyCount && |s.held| == KeyCount
  }

  /** get_key_state(sc) on an input state. */
  function KeyStateOf(s: Input, sc: int): (k: KeyState)
    requires WellFormed(s) && 0 <= sc < KeyCount
    ensures k.pressed == s.keys[sc].pressed && k.held == s.held[sc] && k.released == s.keys[sc].released
  {
    KeyState(s.keys[sc].pressed, s.held[sc], s.keys[sc].released)
  }

  /** The memset at the top of each iteration: every pressed and released flag
      cleared, held keys and running untouched. */
  function ClearFrame(s: Input): (r: Input)
    requires WellFormed(s)
    ensures WellFormed(r) && r.held == s.held && r.running == s.running
    ensures forall i :: 0 <= i < KeyCount ==> r.keys[i] == FrameKeyState(false, false)
  {
    Input(seq(KeyCount, _ => FrameKeyState(false, false)), s.held, s.running)
  }

  /** One event of the polling loop.  SDL_QUIT clears running; KEYDOWN of a key
      not yet held sets pressed and held, and of a held key (auto-repeat) does
      nothing; KEYUP sets released and clears held whatever came before. */
  function Apply(s: Input, e: Event): (r: Input)
    requires WellFormed(s) && ValidEvent(e)
    ensures WellFormed(r)
    ensures e.Quit? ==> r == s.(running := false)
    ensures e.Ignored? ==> r == s
    ensures e.KeyDown? && s.held[e.sc] ==> r == s
    ensures e.KeyDown? && !s.held[e.sc] ==>
      r.running == s.running && r.held == s.held[e.sc := true]
      && r.keys == s.keys[e.sc := s.keys[e.sc].(pressed := true)]
    ensures e.KeyUp? ==>
      r.running == s.running && r.held == s.held[e.sc := false]
      && r.keys == s.keys[e.sc := s.keys[e.sc].(released := true)]
  {
    match e
    case Quit => s.(running := false)
    case KeyDown(sc) =>
      if !s.held[sc] then
        s.(keys := s.keys[sc := s.keys[sc].(pressed := true)], held := s.held[sc := true])
      else s
    case KeyUp(sc) =>
      s.(keys := s.keys[sc := s.keys[sc].(released := true)], held := s.held[sc := false])
    case Ignored => s
  }

  /** The whole polling loop: the events applied in order. */
  function ApplyAll(s: Input, events: seq<Event>): (r: Input)
    requires WellFormed(s) && ValidEvents(events)
    ensures WellFormed(r)
    decreases |events|
  {
    if events == [] then s
    else Apply(ApplyAll(s, events[..|events| - 1]), events[|events| - 1])
  }

  /** The events are handled one at a time, in order: polling a batch is
      polling any prefix of it and then the rest. */
  lemma {:induction false} ApplyAllAppend(s: Input, a: seq<Event>, b: seq<Event>)
    requires WellFormed(s) && ValidEvents(a) && ValidEvents(b)
    ensures ValidEvents(a + b)
    ensures ApplyAll(s, a + b) == ApplyAll(ApplyAll(s, a), b)
    decreases |b|
  {
    if b != [] {
      var init := b[..|b| - 1];
      ApplyAllAppend(s, a, init);
      assert (a + b)[..|a + b| - 1] == a + init;
    } else {
      assert a + b == a;
    }
  }

  /** What get_key_state reports at the end of a frame's events is
      consistent: a key pressed this frame and no longer held was released
      this frame, and a key released this frame and held again was pressed
      again. */
  lemma {:induction false} KeyStateConsistent(s: Input, events: seq<Event>, sc: int)
    requires WellFormed(s) && ValidEvents(events) && 0 <= sc < KeyCount
    ensures var k := KeyStateOf(ApplyAll(ClearFrame(s), events), sc);
      (k.pressed && !k.held ==> k.released) && (k.released && k.held ==> k.pressed)
    decreases |events|
  {
    if events != [] {
      KeyStateConsistent(s, events[..|events| - 1], sc);
    }
  }

  /** The key events of one scancode, in order. */
  function KeyEventsFor(events: seq<Event>, sc: int): (r: seq<Event>)
    ensures forall i :: 0 <= i < |r| ==> r[i] == KeyDown(sc) || r[i] == KeyUp(sc)
    decreases |events|
  {
    if events == [] then []
    else
      var e := events[|events| - 1];
      KeyEventsFor(events[..|events| - 1], sc)
        + (if e == KeyDown(sc) || e == KeyUp(sc) then [e] else [])
  }

  /** held_keys[sc] after a frame's events is decided by the last key event
      for sc: held after a KEYDOWN, not held after a KEYUP, unchanged when sc
      saw no event. */
  lemma {:induction false} HeldIsLastKeyEvent(s: Input, events: seq<Event>, sc: int)
    requires WellFormed(s) && ValidEvents(events) && 0 <= sc < KeyCount
    ensures var k := KeyEventsFor(events, sc);
      ApplyAll(s, events).held[sc] == if k == [] then s.held[sc] else k[|k| - 1].KeyDown?
    decreases |events|
  {
    if events != [] {
      HeldIsLastKeyEvent(s, events[..|events| - 1], sc);
    }
  }

  /** Events for other scancodes, and quit, leave a key's entries alone. */
  lemma {:induction false} OtherKeysUntouched(s: Input, events: seq<Event>, sc: int)
    requires WellFormed(s) && ValidEvents(events) && 0 <= sc < KeyCount
    requires KeyEventsFor(events, sc) == []
    ensures ApplyAll(s, events).keys[sc] == s.keys[sc]
    ensures ApplyAll(s, events).held[sc] == s.held[sc]
    decreases |events|
  {
    if events != [] {
      var init := events[..|events| - 1];
      assert KeyEventsFor(init, sc) == [] by {
        assert |KeyEventsFor(init, sc)| <= |KeyEventsFor(events, sc)|;
      }
      OtherKeysUntouched(s, init, sc);
    }
  }

  /** Auto-repeat never presses a key again: while a key stays held through a
      frame with no KEYUP for it, its pressed flag is not set. */
  lemma {:induction false} NoRepeatWhileHeld(s: Input, events: seq<Event>, sc: int)
    requires WellFormed(s) && ValidEvents(events) && 0 <= sc < KeyCount
    requires s.held[sc] && !s.keys[sc].pressed
    requires KeyUp(sc) !in events
    ensures ApplyAll(s, events).held[sc] && !ApplyAll(s, events).keys[sc].pressed
    decreases |events|
  {
    if events != [] {
      var init := events[..|events| - 1];
      assert forall e :: e in init ==> e in events;
      NoRepeatWhileHeld(s, init, sc);
    }
  }

  /** A key's pressed flag is set in a frame only by a KEYDOWN for it. */
  lemma {:induction false} PressedNeedsKeyDown(s: Input, events: seq<Event>, sc: int)
    requires WellFormed(s) && ValidEvents(events) && 0 <= sc < KeyCount
    requires !s.keys[sc].pressed && ApplyAll(s, events).keys[sc].pressed
    ensures KeyDown(sc) in events
    decreases |events|
  {
    var init := events[..|events| - 1];
    if !ApplyAll(s, init).keys[sc].pressed {
      assert events[|events| - 1] == KeyDown(sc);
    } else {
      PressedNeedsKeyDown(s, init, sc);
      assert forall e :: e in init ==> e in events;
    }
  }

  /** After the frame's clear, a key reads as released exactly when a KEYUP
      for it arrived during the frame. */
  lemma {:induction false} ReleasedIffKeyUp(s: Input, events: seq<Event>, sc: int)
    requires WellFormed(s) && ValidEvents(events) && 0 <= sc < KeyCount
    requires !s.keys[sc].released
    ensures ApplyAll(s, events).keys[sc].released <==> KeyUp(sc) in events
    decreases |events|
  {
    if events != [] {
      var init := events[..|events| - 1];
      ReleasedIffKeyUp(s, init, sc);
      assert events == init + [events[|events| - 1]];
      assert KeyUp(sc) in events <==> KeyUp(sc) in init || events[|events| - 1] == KeyUp(sc);
    }
  }

  /** A KEYUP followed by a KEYDOWN in the same frame presses the key again,
      even though it was held when the frame began. */
  lemma RepressInSameFrame(s: Input, sc: int)
    requires WellFormed(s) && 0 <= sc < KeyCount
    ensures var r := ApplyAll(s, [KeyUp(sc), KeyDown(sc)]);
      r.keys[sc].pressed && r.keys[sc].released && r.held[sc]
  {
    assert [KeyUp(sc), KeyDown(sc)][..1] == [KeyUp(sc)];
    assert [KeyUp(sc)][..0] == [];
  }

  /** Quit clears running and nothing brings it back: the remaining events
      of the batch are still handled, but running stays false. */
  lemma {:induction false} RunningAfterEvents(s: Input, events: seq<Event>)
    requires WellFormed(s) && ValidEvents(events)
    ensures ApplyAll(s, events).running == (s.running && Quit !in events)
    decreases |events|
  {
    if events != [] {
      var init := events[..|events| - 1];
      RunningAfterEvents(s, init);
      assert events == init + [events[|events| - 1]];
    }
  }

  predicate ValidBatches(batches: seq<seq<Event>>)
  {
    forall i :: 0 <= i < |batches| ==> ValidEvents(batches[i])
  }

  /** The input states handed to on_frame_update by `while (running)`: each
      iteration clears the frame flags, handles its batch of events, and calls
      the update, even when the batch held SDL_QUIT; the test then ends the
      loop. */
  function RunFrom(s: Input, batches: seq<seq<Event>>): (seen: seq<Input>)
    requires WellFormed(s) && ValidBatches(batches)
    ensures |seen| <= |batches|
    ensures forall i :: 0 <= i < |seen| ==> WellFormed(seen[i])
    decreases |batches|
  {
    if batches == [] || !s.running then []
    else
      var next := ApplyAll(ClearFrame(s), batches[0]);
      [next] + RunFrom(next, batches[1..])
  }

  /** One iteration of the loop, as RunFrom takes it. */
  lemma RunFromStep(s: Input, batches: seq<seq<Event>>)
    requires WellFormed(s) && ValidBatches(batches) && batches != [] && s.running
    ensures var next := ApplyAll(ClearFrame(s), batches[0]);
      RunFrom(s, batches) == [next] + RunFrom(next, batches[1..])
  {
  }

  /** Index of the first batch holding SDL_QUIT, |batches| if none does. */
  function FirstQuit(batches: seq<seq<Event>>): (n: nat)
    ensures n <= |batches|
    ensures forall i :: 0 <= i < n ==> Quit !in batches[i]
    ensures n < |batches| ==> Quit in batches[n]
  {
    if batches == [] then 0
    else if Quit in batches[0] then 0
    else 1 + FirstQuit(batches[1..])
  }

  /** The frame that receives SDL_QUIT is still updated, and it is the last
      one: the loop runs up to and including the first batch with a quit, and
      only that frame sees running == false. */
  lemma {:induction false} QuitFrameIsLast(s: Input, batches: seq<seq<Event>>)
    requires WellFormed(s) && ValidBatches(batches) && s.running
    ensures var seen := RunFrom(s, batches);
      |seen| == (if FirstQuit(batches) < |batches| then FirstQuit(batches) + 1 else |batches|)
      && (forall i :: 0 <= i < |seen| ==> (seen[i].running <==> i != FirstQuit(batches)))
    decreases |batches|
  {
    if batches != [] {
      var next := ApplyAll(ClearFrame(s), batches[0]);
      RunningAfterEvents(ClearFrame(s), batches[0]);
      if next.running {
        QuitFrameIsLast(next, batches[1..]);
        var rest := RunFrom(next, batches[1..]);
        assert RunFrom(s, batches) == [next] + rest;
        forall i | 1 <= i < |rest| + 1
          ensures RunFrom(s, batches)[i] == rest[i - 1]
        {
        }
      }
    }
  }

  /** The engine's main object: the two key tables and the loop flag. */
  class PixelDraw {
    var running: bool
    var cycleCount: nat
    const keys: array<FrameKeyState>
    const heldKeys: array<bool>

    ghost predicate Valid()
      reads this
    {
      keys.Length == KeyCount && heldKeys.Length == KeyCount
    }

    /** The tables as values. */
    function State(): (s: Input)
      reads this, keys, heldKeys
      requires Valid()
      ensures WellFormed(s)
    {
      Input(keys[..], heldKeys[..], running)
    }

    /** Both tables are zeroed, and the loop is not running yet. */
    constructor ()
      ensures Valid() && fresh(keys) && fresh(heldKeys)
      ensures !running && cycleCount == 0
      ensures forall i :: 0 <= i < KeyCount ==> keys[i] == FrameKeyState(false, false) && !heldKeys[i]
    {
      running := false;
      cycleCount := 0;
      keys := new FrameKeyState[KeyCount](_ => FrameKeyState(false, false));
      heldKeys := new bool[KeyCount](_ => false);
    }

    /** get_key_state(sc): the frame flags and the held flag of one key; no
        bounds check, so sc must be below 322. */
    function GetKeyState(sc: int): (k: KeyState)
      reads this, keys, heldKeys
      requires Valid() && 0 <= sc < KeyCount
      ensures k == KeyStateOf(State(), sc)
    {
      KeyState(keys[sc].pressed, heldKeys[sc], keys[sc].released)
    }

    /** memset(&keys, 0, ...): every frame flag cleared, held_keys untouched. */
    method ClearFrameKeys()
      requires Valid()
      modifies keys
      ensures State() == ClearFrame(old(State()))
    {
      var i := 0;
      while i < KeyCount
        invariant 0 <= i <= KeyCount
        invariant forall j :: 0 <= j < i ==> keys[j] == FrameKeyState(false, false)
        invariant forall j :: i <= j < KeyCount ==> keys[j] == old(keys[j])
      {
        keys[i] := FrameKeyState(false, false);
        i := i + 1;
      }
    }

    /** One iteration of the `while (SDL_PollEvent(&event))` body. */
    method HandleEvent(e: Event)
      requires Valid() && ValidEvent(e)
      modifies this, keys, heldKeys
      ensures Valid() && cycleCount == old(cycleCount)
      ensures State() == Apply(old(State()), e)
    {
      match e
      case Quit =>
        running := false;
      case KeyDown(sc) =>
        if !heldKeys[sc] {
          keys[sc] := keys[sc].(pressed := true);
          heldKeys[sc] := true;
        }
      case KeyUp(sc) =>
        keys[sc] := keys[sc].(released := true);
        heldKeys[sc] := false;
      case Ignored =>
    }

    /** The polling loop over one frame's events. */
    method PollEvents(events: seq<Event>)
      requires Valid() && ValidEvents(events)
      modifies this, keys, heldKeys
      ensures Valid() && cycleCount == old(cycleCount)
      ensures State() == ApplyAll(old(State()), events)
    {
      var i := 0;
      while i < |events|
        invariant 0 <= i <= |events| && Valid() && cycleCount == old(cycleCount)
        invariant State() == ApplyAll(old(State()), events[..i])
      {
        assert events[..i + 1][..i] == events[..i];
        HandleEvent(events[i]);
        i := i + 1;
      }
      assert events[..i] == events;
    }

    /** `run` after on_load: running is set, and while it holds each iteration
        counts a cycle, clears the frame flags, polls its batch of events and
        calls on_frame_update.  The update is represented by the input state
        it observes, returned in `seen`; the batches stand for what SDL's queue
        delivers, so the loop also ends when they run out. */
    method Run(batches: seq<seq<Event>>) returns (seen: seq<Input>)
      requires Valid() && ValidBatches(batches)
      modifies this, keys, heldKeys
      ensures Valid()
      ensures seen == RunFrom(old(State()).(running := true), batches)
      ensures cycleCount == old(cycleCount) + |seen|
    {
      running := true;
      ghost var start := State();
      seen := [];
      var i := 0;
      while running && i < |batches|
        invariant 0 <= i <= |batches| && Valid()
        invariant cycleCount == old(cycleCount) + |seen|
        invariant seen + RunFrom(State(), batches[i..]) == RunFrom(start, batches)
        decreases |batches| - i
      {
        ghost var before := State();
        RunCycle(batches[i]);
        RunFromStep(before, batches[i..]);
        assert batches[i..][1..] == batches[i + 1..];
        seen := seen + [State()];
        i := i + 1;
      }
    }

    /** One iteration of the loop up to on_frame_update: count the cycle,
        clear the frame flags, poll the batch. */
    method RunCycle(events: seq<Event>)
      requires Valid() && ValidEvents(events)
      modifies this, keys, heldKeys
      ensures Valid() && cycleCount == old(cycleCount) + 1
      ensures State() == ApplyAll(ClearFrame(old(State())), events)
    {
      cycleCount := cycleCount + 1;
      ClearFrameKeys();
      PollEvents(events);
    }
  }

  /** An SDL texture handle; Null is nullptr. */
  datatype Handle = Null | Ptr(id: nat)

  /** The handles SDL_DestroyTexture receives when a texture is destroyed:
      only a non-null one. */
  function Releases(h: Handle): (r: seq<nat>)
    ensures h.Ptr? ==> r == [h.id]
    ensures h.Null? ==> r == []
  {
    if h.Ptr? then [h.id] else []
  }

  /** A loaded texture: the SDL handle and the queried size. */
  class Texture {
    var ptr: Handle
    var w: int
    var h: int

    /** A texture as create_texture makes it; the handle and size come from
        IMG_LoadTexture and SDL_QueryTexture. */
    constructor (handle: Handle, width: int, height: int)
      ensures ptr == handle && w == width && h == height
    {
      ptr := handle;
      w := width;
      h := height;
    }

    /** The move constructor: the new texture takes the handle and the size,
        and the source is left holding nullptr. */
    constructor Move(t: Texture)
      modifies t
      ensures ptr == old(t.ptr) && w == old(t.w) && h == old(t.h)
      ensures t.ptr == Null && t.w == old(t.w) && t.h == old(t.h)
    {
      ptr := t.ptr;
      w := t.w;
      h := t.h;
      t.ptr := Null;
    }

    /** The destructor: destroys the handle when it is not null and returns
        the handles it released. */
    method Destroy() returns (released: seq<nat>)
      ensures released == Releases(ptr)
    {
      released := [];
      if ptr.Ptr? {
        released := [ptr.id];
      }
    }
  }

  /** Moving a texture and then destroying both the moved-from and the new
      object releases the original handle exactly once. */
  method MoveThenDestroyBoth(t: Texture) returns (released: seq<nat>)
    modifies t
    ensures released == Releases(old(t.ptr))
  {
    var moved := new Texture.Move(t);
    var fromSource := t.Destroy();
    var fromMoved := moved.Destroy();
    released := fromSource + fromMoved;
  }
}
