/** The scroll-to-section mapper of the page (`mapScrollValue`).
    A scroll offset is split into three phase values with fixed
    breakpoints at 450 and 600: a dolly-in phase (section1), a hold phase
    (section2) and a pan phase (section3). Offsets are modelled as exact
    reals; the mapper does not validate its input, so negative offsets are
    accepted and fall into the first branch. */
module ScrollSections {

  /** The first breakpoint: the end of the dolly-in phase. */
  const DollyEnd: real := 450.0
  /** The second breakpoint: the start of the pan phase. */
  const PanStart: real := 600.0

  datatype Sections = Sections(section1: real, section2: real, section3: real)

  function Min(a: real, b: real): real { if a <= b then a else b }
  function Max(a: real, b: real): real { if a <= b then b else a }

  /** Sum of the three sections, used to state how far they are from
      reconstructing the scroll offset. */
  function Total(s: Sections): real { s.section1 + s.section2 + s.section3 }

  /** `mapScrollValue`. The third branch returns the constant 600 for
      section2, although the second branch only reaches values below 150,
      so section2 jumps at the 600 breakpoint; this is kept as written. */
  function MapScrollValue(value: real): (r: Sections)
    ensures r.section1 == Min(value, DollyEnd)
    ensures r.section3 == Max(value - PanStart, 0.0)
    ensures value < DollyEnd ==> r.section2 == 0.0
    ensures DollyEnd <= value < PanStart ==>
              0.0 <= r.section2 < PanStart - DollyEnd && r.section1 + r.section2 == value
    ensures PanStart <= value ==> r.section2 == PanStart
    ensures 0.0 <= r.section2 && r.section3 >= 0.0 && r.section1 <= DollyEnd
  {
    if value < DollyEnd then
      Sections(value, 0.0, 0.0)
    else if value < PanStart then
      Sections(DollyEnd, value - DollyEnd, 0.0)
    else
      Sections(DollyEnd, PanStart, value - PanStart)
  }

  /** Each section is non-decreasing as the scroll offset grows, the jump of
      section2 at 600 included. */
  lemma MapScrollValueMonotone(a: real, b: real)
    requires a <= b
    ensures MapScrollValue(a).section1 <= MapScrollValue(b).section1
    ensures MapScrollValue(a).section2 <= MapScrollValue(b).section2
    ensures MapScrollValue(a).section3 <= MapScrollValue(b).section3
  {
  }

  /** For a non-negative offset every section is non-negative and section1
      stays within [0, 450]. */
  lemma MapScrollValueBounds(value: real)
    requires value >= 0.0
    ensures 0.0 <= MapScrollValue(value).section1 <= DollyEnd
    ensures MapScrollValue(value).section2 >= 0.0
    ensures MapScrollValue(value).section3 >= 0.0
  {
  }

  /** The hold phase never reaches 150, yet at 600 section2 is 600: the jump
      at the second breakpoint is larger than 450. */
  lemma Section2JumpsAtPanStart(below: real)
    requires below < PanStart
    ensures MapScrollValue(below).section2 < PanStart - DollyEnd
    ensures MapScrollValue(PanStart).section2 - MapScrollValue(below).section2 > DollyEnd
  {
  }

  /** The sections add up to the scroll offset exactly before the pan phase;
      from 600 on they overshoot it by 450, because of the constant section2. */
  lemma TotalRecoversScrollBeforePan(value: real)
    ensures Total(MapScrollValue(value)) == value <==> value < PanStart
    ensures PanStart <= value ==> Total(MapScrollValue(value)) == value + DollyEnd
  {
  }

  /** Sample offsets at and around each breakpoint: 0, 450, 500, 600 and 2600. */
  lemma MapScrollValueScenarios()
    ensures MapScrollValue(0.0) == Sections(0.0, 0.0, 0.0)
    ensures MapScrollValue(450.0) == Sections(450.0, 0.0, 0.0)
    ensures MapScrollValue(500.0) == Sections(450.0, 50.0, 0.0)
    ensures MapScrollValue(600.0) == Sections(450.0, 600.0, 0.0)
    ensures MapScrollValue(2600.0) == Sections(450.0, 600.0, 2000.0)
  {
  }
}
