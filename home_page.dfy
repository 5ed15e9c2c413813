/**
 * The home page's small pieces of state: the set of flipped experience
 * cards, the rotating hero phrase and greeting, and the three-phase glitch
 * of the hero name. Each timer tick or click is one application of the
 * updater the page passes to its state setter.
 */
module HomePage {

  const HeroPhrases: seq<string> := [
    "an ultra-creative",
    "an artist",
    "a producer",
    "a designer",
    "a visionary",
    "a genius"
  ]

  const Greetings: seq<string> := [
    "hello",
    "hola",
    "bonjour",
    "ciao",
    "こんにちは",
    "bawo",
    "olá",
    "hallo"
  ]

  // ---- Flipped cards ----

  /**
   * `toggleCard(cardId)`'s updater: a copy of the previous set with `cardId`
   * removed if it was there and added otherwise. Sets are values here, so
   * the previous set is never changed.
   */
  function ToggleCard(prev: set<string>, cardId: string): (next: set<string>)
    ensures cardId in next <==> cardId !in prev
    ensures forall id :: id != cardId ==> (id in next <==> id in prev)
  {
    if cardId in prev then prev - {cardId} else prev + {cardId}
  }

  /** Toggling the same card twice restores the set. */
  lemma ToggleTwice(prev: set<string>, cardId: string)
    ensures ToggleCard(ToggleCard(prev, cardId), cardId) == prev
  {
  }

  // ---- Rotating phrase and greeting ----

  /** `(current + 1) % length`: one timer tick of a rotating index, moving on by one and wrapping at the end. */
  function Rotate(current: nat, length: nat): (next: nat)
    requires length > 0
    ensures next < length
    ensures current + 1 < length ==> next == current + 1
    ensures current + 1 == length ==> next == 0
  {
    (current + 1) % length
  }

  /** The index after `ticks` ticks, starting from `start`. */
  function RotateTimes(start: nat, length: nat, ticks: nat): (r: nat)
    requires length > 0
    ensures ticks > 0 ==> r < length
  {
    if ticks == 0 then start else Rotate(RotateTimes(start, length, ticks - 1), length)
  }

  /** Before reaching the end, each tick moves the index up by one. */
  lemma {:induction false} RotateTimesCounts(start: nat, length: nat, ticks: nat)
    requires start + ticks < length
    ensures RotateTimes(start, length, ticks) == start + ticks
  {
    if ticks > 0 {
      RotateTimesCounts(start, length, ticks - 1);
    }
  }

  /** Ticking `a` times and then `b` times is ticking `a + b` times. */
  lemma {:induction false} RotateTimesCompose(start: nat, length: nat, a: nat, b: nat)
    requires length > 0
    ensures RotateTimes(start, length, a + b) == RotateTimes(RotateTimes(start, length, a), length, b)
  {
    if b > 0 {
      RotateTimesCompose(start, length, a, b - 1);
    }
  }

  /** An index in range comes back to where it started after `length` ticks, having wrapped once to 0. */
  lemma RotateTimesPeriod(start: nat, length: nat)
    requires start < length
    ensures RotateTimes(start, length, length - start) == 0
    ensures RotateTimes(start, length, length) == start
  {
    var toEnd := length - start;
    RotateTimesCounts(start, length, toEnd - 1);
    assert RotateTimes(start, length, toEnd) == 0;
    RotateTimesCompose(start, length, toEnd, start);
    RotateTimesCounts(0, length, start);
  }

  /** The phrase index starts at 0 and always names one of the six phrases. */
  lemma PhraseInRange(ticks: nat)
    ensures RotateTimes(0, |HeroPhrases|, ticks) < |HeroPhrases|
  {
  }

  /** The phrase index returns to where it was after six ticks. */
  lemma PhrasePeriod(start: nat)
    requires start < |HeroPhrases|
    ensures RotateTimes(start, |HeroPhrases|, |HeroPhrases|) == start
  {
    RotateTimesPeriod(start, |HeroPhrases|);
  }

  /** The greeting index starts at 0 and always names one of the eight greetings. */
  lemma GreetingInRange(ticks: nat)
    ensures RotateTimes(0, |Greetings|, ticks) < |Greetings|
  {
  }

  /** The greeting index returns to where it was after eight ticks. */
  lemma GreetingPeriod(start: nat)
    requires start < |Greetings|
    ensures RotateTimes(start, |Greetings|, |Greetings|) == start
  {
    RotateTimesPeriod(start, |Greetings|);
  }

  // ---- Glitch cycle ----

  datatype GlitchPhase = Idle | Glitch1 | Glitch2

  /** The phase's position in the cycle idle, glitch1, glitch2. */
  function PhaseIndex(p: GlitchPhase): nat {
    match p
    case Idle => 0
    case Glitch1 => 1
    case Glitch2 => 2
  }

  /** The phase the next timeout of the glitch cycle sets. */
  function NextPhase(p: GlitchPhase): (q: GlitchPhase)
    ensures PhaseIndex(q) == (PhaseIndex(p) + 1) % 3
  {
    match p
    case Idle => Glitch1
    case Glitch1 => Glitch2
    case Glitch2 => Idle
  }

  /**
   * The phase after `steps` timeouts, starting idle on mount: the phases run
   * idle, glitch1, glitch2, idle, … forever, never skipping or going back.
   */
  function PhaseAfter(steps: nat): (p: GlitchPhase)
    ensures PhaseIndex(p) == steps % 3
  {
    if steps == 0 then Idle else NextPhase(PhaseAfter(steps - 1))
  }

  /** The cycle has period three, and the alias shows on every third timeout, starting with the first. */
  lemma PhaseAfterCycles(steps: nat)
    ensures PhaseAfter(steps + 3) == PhaseAfter(steps)
    ensures HeroNameFor(PhaseAfter(steps)).AliasLink? <==> steps % 3 == 1
  {
    assert PhaseIndex(PhaseAfter(steps + 3)) == PhaseIndex(PhaseAfter(steps));
  }

  /** What the hero heading shows for a phase: the name, or the alias linked out during glitch1. */
  datatype HeroName = Name(text: string) | AliasLink(text: string, href: string)

  function HeroNameFor(p: GlitchPhase): (h: HeroName)
    ensures h.AliasLink? <==> p == Glitch1
    ensures h.Name? ==> h.text == "mirireoluwa"
    ensures h.AliasLink? ==> h.text == "saintted" && h.href == "https://saintted.framer.website"
  {
    match p
    case Idle => Name("mirireoluwa")
    case Glitch1 => AliasLink("saintted", "https://saintted.framer.website")
    case Glitch2 => Name("mirireoluwa")
  }
}
