/** The `Timeout` objects that one field of a transaction holds one after the other: each is started
    once, then it fires or is cancelled; a second cancellation would close a closed channel. */
module Timeouts {
  import opened Messages

  /** `held`: the object in the field.  `running`: the objects that still wait to fire.  `cancelled`:
      those whose channel is closed.  `twice`: one was closed again. */
  datatype Field = Field(next: nat, held: Option<nat>, running: set<nat>, cancelled: set<nat>, twice: bool)

  const UNUSED: Field := Field(0, None, {}, {}, false)

  /** No object was cancelled twice, and the one in the field can be cancelled. */
  predicate Once(f: Field) {
    !f.twice && (f.held.Some? ==> f.held.value < f.next && f.held.value !in f.cancelled) &&
    (forall i <- f.cancelled :: i < f.next) && (forall i <- f.running :: i < f.next)
  }

  /** An object that will still fire is in the field, where it can be cancelled. */
  predicate NoOrphans(f: Field) { forall i <- f.running :: f.held == Some(i) }

  /** The object in the field has not fired. */
  predicate Waits(f: Field) { f.held.Some? && f.held.value in f.running }

  /** `StartTimeout` into the field. */
  function Started(f: Field): Field { Field(f.next + 1, Some(f.next), f.running + {f.next}, f.cancelled, f.twice) }

  /** `Cancel` of the object in the field, if there is one; the field is emptied. */
  function Cancelled(f: Field): Field {
    if f.held.None? then f
    else
      var i := f.held.value;
      Field(f.next, None, f.running - {i}, f.cancelled + {i}, f.twice || i in f.cancelled)
  }

  /** The object in the field fires; the field still holds it. */
  function Fired(f: Field): Field { if f.held.None? then f else f.(running := f.running - {f.held.value}) }

  /** The field is emptied. */
  function Emptied(f: Field): Field { f.(held := None) }

  /** What the transactions keep; the field holds an object exactly while the timer is armed. */
  predicate Fine(f: Field, armed: bool) { Once(f) && NoOrphans(f) && (f.held.Some? <==> armed) }

  datatype Step = DoStart | DoCancel | DoFire | DoEmpty

  function Apply(f: Field, s: Step): Field {
    match s
    case DoStart => Started(f)
    case DoCancel => Cancelled(f)
    case DoFire => Fired(f)
    case DoEmpty => Emptied(f)
  }

  /** Whatever is done to a field, no object is cancelled twice; and one is lost exactly if the field is
      overwritten or emptied while its object still waits. */
  lemma FieldKeeps(f: Field, s: Step)
    requires Once(f)
    ensures Once(Apply(f, s))
    ensures NoOrphans(f) ==> (NoOrphans(Apply(f, s)) <==> !((s.DoStart? || s.DoEmpty?) && Waits(f)))
  {
    if NoOrphans(f) && (s.DoStart? || s.DoEmpty?) && Waits(f) {
      assert f.held.value in Apply(f, s).running;
    }
  }
}
