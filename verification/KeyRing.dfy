/** The keyboard's circular buffer in lib/c_io.c. */
module KeyRing {
  import opened Defs

  const C_BUFSIZE: nat := 200

  /** The next place in the buffer (lib/c_io.c:570-575). */
  function Increment(p: nat): (r: nat)
    requires p < C_BUFSIZE
    ensures r < C_BUFSIZE && (r - p - 1) % C_BUFSIZE == 0
  {
    if p + 1 >= C_BUFSIZE then 0 else p + 1
  }

  class Ring {
    const buffer: array<Byte>
    var nextChar: nat
    var nextSpace: nat

    ghost predicate Valid()
      reads this
    {
      buffer.Length == C_BUFSIZE && nextChar < C_BUFSIZE && nextSpace < C_BUFSIZE
    }

    /** The characters waiting, oldest first. */
    ghost function Waiting(): (s: seq<Byte>)
      requires Valid()
      reads this, buffer
      ensures |s| < C_BUFSIZE
    {
      if nextChar <= nextSpace then buffer[nextChar..nextSpace] else buffer[nextChar..] + buffer[..nextSpace]
    }

    constructor ()
      ensures Valid() && fresh(buffer) && Waiting() == []
    {
      buffer := new Byte[C_BUFSIZE];
      nextChar, nextSpace := 0, 0;
    }

    /** The store at the end of `__c_input_scan_code`: only if there is room. */
    method Store(ch: Byte)
      requires Valid()
      modifies this`nextSpace, buffer
      ensures Valid() && Waiting() == Stored(old(Waiting()), ch)
    {
      var next := Increment(nextSpace);
      if next != nextChar {
        buffer[nextSpace] := ch;
        nextSpace := next;
      }
    }

    /** `c_getchar`, once there is something to get: first the character is read ... */
    method Peek() returns (ch: Byte)
      requires Valid() && Waiting() != []
      ensures ch == Waiting()[0]
    {
      ch := buffer[nextChar];
    }

    /** ... and then the pointer advanced; interrupts are enabled, and a key may arrive in between. */
    method Advance()
      requires Valid() && Waiting() != []
      modifies this`nextChar
      ensures Valid() && Waiting() == old(Waiting())[1..]
    {
      nextChar := Increment(nextChar);
    }

    /** One event, on the buffer and its pointers. */
    method React(e: Event, held: Option<Byte>, ghost t: Trace) returns (held': Option<Byte>, took: seq<Byte>)
      requires Valid() && t.waiting == Waiting() && t.held == held && Sound(t)
      modifies this, buffer
      ensures Valid() && Waiting() == Step(t, e).waiting && held' == Step(t, e).held
      ensures t.taken + took == Step(t, e).taken
    {
      held', took := held, [];
      match e
      case Key(ch) => Store(ch);
      case Read =>
        if held.None? && nextChar != nextSpace {
          var ch := Peek();
          held' := Some(ch);
        }
      case Move =>
        if held.Some? {
          held', took := None, [held.value];
          Advance();
        }
    }

    /** Any interleaving of keys with the one reader. */
    method Play(es: seq<Event>) returns (held: Option<Byte>, taken: seq<Byte>)
      requires Valid()
      modifies this, buffer
      ensures Valid()
      ensures var t := Run(Trace(old(Waiting()), None, [], 0), es);
              Waiting() == t.waiting && held == t.held && taken == t.taken
    {
      hide Step, Sound, Valid, Waiting;
      held, taken := None, [];
      ghost var t := Trace(Waiting(), None, [], 0);
      assert Sound(t) by {
        NothingHeld(t);
      }
      for i := 0 to |es|
        invariant Valid() && Waiting() == t.waiting && held == t.held && taken == t.taken && Sound(t)
        invariant Run(Trace(old(Waiting()), None, [], 0), es) == Run(t, es[i..])
      {
        StepFifo(t, es[i]);
        assert es[i..][1..] == es[i + 1..];
        var took;
        held, took := React(es[i], held, t);
        taken, t := taken + took, Step(t, es[i]);
      }
    }

    method InputQueue() returns (n: int)
      requires Valid()
      ensures n == |Waiting()|
    {
      n := nextSpace - nextChar;
      if n < 0 {
        n := n + C_BUFSIZE;
      }
    }
  }

  function Stored(waiting: seq<Byte>, ch: Byte): seq<Byte> {
    if |waiting| < C_BUFSIZE - 1 then waiting + [ch] else waiting
  }

  // ---- runs ----

  /** A key arrives; or the reader reads the character it is to take, waiting while there is none; or it moves its
      pointer past a character it has read. */
  datatype Event = Key(ch: Byte) | Read | Move

  /** `held` is the character that the reader has read, until it moves past it. */
  datatype Trace = Trace(waiting: seq<Byte>, held: Option<Byte>, taken: seq<Byte>, refused: nat)

  /** What the reader holds is the oldest character waiting: no key has overwritten it. */
  predicate Sound(t: Trace) {
    |t.waiting| < C_BUFSIZE && (t.held.Some? ==> t.waiting != [] && t.held.value == t.waiting[0])
  }

  lemma NothingHeld(t: Trace)
    requires |t.waiting| < C_BUFSIZE && t.held.None?
    ensures Sound(t)
  {
  }

  function Step(t: Trace, e: Event): Trace {
    match e
    case Key(ch) =>
      t.(waiting := Stored(t.waiting, ch), refused := if |t.waiting| < C_BUFSIZE - 1 then t.refused else t.refused + 1)
    case Read => if t.held.Some? || t.waiting == [] then t else t.(held := Some(t.waiting[0]))
    case Move =>
      if t.held.None? || t.waiting == [] then t
      else t.(waiting := t.waiting[1..], held := None, taken := t.taken + [t.held.value])
  }

  function Run(t: Trace, es: seq<Event>): Trace
    decreases |es|
  {
    if es == [] then t else Run(Step(t, es[0]), es[1..])
  }

  /** The keys pressed, except those that came when 199 were waiting. */
  function Kept(t: Trace, es: seq<Event>): seq<Byte>
    decreases |es|
  {
    if es == [] then []
    else (if es[0].Key? && |t.waiting| < C_BUFSIZE - 1 then [es[0].ch] else []) + Kept(Step(t, es[0]), es[1..])
  }

  function Keys(es: seq<Event>): seq<Byte> {
    if es == [] then [] else (if es[0].Key? then [es[0].ch] else []) + Keys(es[1..])
  }

  lemma StepFifo(t: Trace, e: Event)
    requires Sound(t)
    ensures var u := Step(t, e);
            && u.taken + u.waiting
               == t.taken + t.waiting + (if e.Key? && |t.waiting| < C_BUFSIZE - 1 then [e.ch] else [])
            && Sound(u)
  {
    if e.Move? && t.held.Some? {
      assert t.waiting == [t.waiting[0]] + t.waiting[1..];
    }
  }

  /** In every interleaving the characters taken and then those waiting are the ones kept, in order; and what the
      reader holds between its two steps is the oldest of those waiting. */
  lemma {:induction false} Fifo(t: Trace, es: seq<Event>)
    requires Sound(t)
    ensures Run(t, es).taken + Run(t, es).waiting == t.taken + t.waiting + Kept(t, es)
    ensures Sound(Run(t, es))
    decreases |es|
  {
    hide Step, Keys, Sound;
    if es != [] {
      StepFifo(t, es[0]);
      Fifo(Step(t, es[0]), es[1..]);
    }
  }

  /** Exactly the refused keys are missing; when none was refused, none is. */
  lemma {:induction false} NoneLost(t: Trace, es: seq<Event>)
    ensures t.refused <= Run(t, es).refused && |Kept(t, es)| + (Run(t, es).refused - t.refused) == |Keys(es)|
    ensures Run(t, es).refused == t.refused <==> Kept(t, es) == Keys(es)
    decreases |es|
  {
    if es != [] {
      var u := Step(t, es[0]);
      assert u.refused == t.refused + if es[0].Key? && C_BUFSIZE - 1 <= |t.waiting| then 1 else 0;
      NoneLost(u, es[1..]);
    }
  }

  /** The reader waits only while there is nothing: with a character there it reads the oldest, and does nothing
      else. */
  lemma ReadHolds(t: Trace)
    requires t.held.None?
    ensures Step(t, Read) == t.(held := if t.waiting == [] then None else Some(t.waiting[0]))
  {
  }

  /** Keys alone: the reader holds what it held, and the keys kept go behind the characters waiting. */
  lemma {:induction false} KeysOnly(t: Trace, keys: seq<Event>)
    requires Sound(t) && forall i :: 0 <= i < |keys| ==> keys[i].Key?
    ensures var u := Run(t, keys);
            Sound(u) && u.held == t.held && u.taken == t.taken && u.waiting == t.waiting + Kept(t, keys)
    decreases |keys|
  {
    if keys != [] {
      var u := Step(t, keys[0]);
      StepFifo(t, keys[0]);
      KeysOnly(u, keys[1..]);
      assert keys[0].Key?;
    }
  }

  lemma {:induction false} RunSnoc(t: Trace, es: seq<Event>, e: Event)
    ensures Run(t, es + [e]) == Step(Run(t, es), e)
    decreases |es|
  {
    hide Step;
    if es == [] {
      assert ([] + [e])[1..] == [];
      assert Run(Step(t, e), []) == Step(t, e);
    } else {
      assert (es + [e])[1..] == es[1..] + [e];
      RunSnoc(Step(t, es[0]), es[1..], e);
    }
  }

  /** `c_getchar` makes progress: if a character waits it takes the oldest, whatever keys come while it stands between
      its two steps, and leaves the others, with the keys kept behind them. */
  lemma TakesOldest(t: Trace, keys: seq<Event>)
    requires Sound(t) && t.held.None? && t.waiting != [] && forall i :: 0 <= i < |keys| ==> keys[i].Key?
    ensures var u := Run(t, [Read] + keys + [Move]);
            && u.taken == t.taken + [t.waiting[0]] && u.held.None?
            && u.waiting == t.waiting[1..] + Kept(t, keys)
  {
    hide Run, Kept;
    var r := Step(t, Read);
    StepFifo(t, Read);
    KeysOnly(r, keys);
    SameKept(t, r, keys);
    ReadFirst(t, keys);
    RunSnoc(t, [Read] + keys, Move);
  }

  lemma ReadFirst(t: Trace, keys: seq<Event>)
    ensures Run(t, [Read] + keys) == Run(Step(t, Read), keys)
  {
    hide Step;
    assert ([Read] + keys)[1..] == keys;
  }

  /** Which keys are kept depends on how many characters wait. */
  lemma {:induction false} SameKept(t: Trace, u: Trace, keys: seq<Event>)
    requires |u.waiting| == |t.waiting| && forall i :: 0 <= i < |keys| ==> keys[i].Key?
    ensures Kept(u, keys) == Kept(t, keys)
    decreases |keys|
  {
    if keys != [] {
      assert keys[0].Key?;
      SameKept(Step(t, keys[0]), Step(u, keys[0]), keys[1..]);
    }
  }

  /** A key that comes while the reader stands between its two steps, with 199 waiting, is refused; it would have
      been kept had it come after them. */
  lemma RefusedInBetween(t: Trace, ch: Byte)
    requires Sound(t) && t.held.None? && |t.waiting| == C_BUFSIZE - 1
    ensures Run(t, [Read, Key(ch), Move]).refused == t.refused + 1
    ensures Run(t, [Read, Move, Key(ch)]).refused == t.refused
  {
    var r := Step(t, Read);
    assert Run(t, [Read, Key(ch), Move]) == Step(Step(r, Key(ch)), Move) by {
      ThreeSteps(t, Read, Key(ch), Move);
    }
    assert Run(t, [Read, Move, Key(ch)]) == Step(Step(r, Move), Key(ch)) by {
      ThreeSteps(t, Read, Move, Key(ch));
    }
  }

  lemma ThreeSteps(t: Trace, a: Event, b: Event, c: Event)
    ensures Run(t, [a, b, c]) == Step(Step(Step(t, a), b), c)
  {
    hide Step;
    var t1 := Step(t, a);
    var t2 := Step(t1, b);
    assert [a, b, c][1..] == [b, c] && [b, c][1..] == [c] && [c][1..] == [];
    assert Run(t, [a, b, c]) == Run(t1, [b, c]);
    assert Run(t1, [b, c]) == Run(t2, [c]);
  }
}
