/**
 * The pricing block of the agreement PDF: the two fee lines and the
 * pricing notes, of which the education-cost note is printed only when an
 * education check is selected.
 */
module PricingSummary {
  import opened Text

  const EducationMarker: string := "Education verification"

  /** A note is printed unless it mentions education verification while no
      education check is selected. */
  predicate NoteShown(note: string, isEducationCheckSelected: bool) {
    !(Contains(note, EducationMarker) && !isEducationCheckSelected)
  }

  /** The `pricingNotes.map(...)`: each printed note prefixed with "* ",
      hidden notes dropped, order kept. */
  function NotesShown(notes: seq<string>, isEducationCheckSelected: bool): (r: seq<string>)
    ensures |r| <= |notes|
  {
    if notes == [] then []
    else
      (if NoteShown(notes[0], isEducationCheckSelected) then ["* " + notes[0]] else [])
      + NotesShown(notes[1..], isEducationCheckSelected)
  }

  /** The notes that are printed, without their prefix. */
  function KeptNotes(notes: seq<string>, isEducationCheckSelected: bool): (r: seq<string>)
    ensures forall n :: n in r <==> n in notes && NoteShown(n, isEducationCheckSelected)
  {
    if notes == [] then []
    else
      (if NoteShown(notes[0], isEducationCheckSelected) then [notes[0]] else [])
      + KeptNotes(notes[1..], isEducationCheckSelected)
  }

  /** The notes filter keeps the original order: it distributes over
      concatenation. */
  lemma {:induction false} KeptNotesAppend(a: seq<string>, b: seq<string>, isEducationCheckSelected: bool)
    ensures KeptNotes(a + b, isEducationCheckSelected) == KeptNotes(a, isEducationCheckSelected) + KeptNotes(b, isEducationCheckSelected)
  {
    if a == [] {
      assert a + b == b;
    } else {
      assert (a + b)[0] == a[0] && (a + b)[1..] == a[1..] + b;
      KeptNotesAppend(a[1..], b, isEducationCheckSelected);
    }
  }

  /** The printed notes are the kept notes in order, each with "* " in
      front. */
  lemma {:induction false} NotesShownAreKept(notes: seq<string>, isEducationCheckSelected: bool)
    ensures var r := NotesShown(notes, isEducationCheckSelected);
      var k := KeptNotes(notes, isEducationCheckSelected);
      |r| == |k| && forall i :: 0 <= i < |r| ==> r[i] == "* " + k[i]
  {
    if notes != [] {
      NotesShownAreKept(notes[1..], isEducationCheckSelected);
    }
  }

  /** Notes that do not mention education verification are always kept. */
  lemma {:induction false} PlainNotesAlwaysKept(notes: seq<string>, isEducationCheckSelected: bool)
    requires forall n :: n in notes ==> !Contains(n, EducationMarker)
    ensures KeptNotes(notes, isEducationCheckSelected) == notes
  {
    if notes != [] {
      PlainNotesAlwaysKept(notes[1..], isEducationCheckSelected);
    }
  }

  /** With an education check selected every note is printed. */
  lemma {:induction false} AllKeptWhenEducationSelected(notes: seq<string>)
    ensures KeptNotes(notes, true) == notes
  {
    if notes != [] {
      AllKeptWhenEducationSelected(notes[1..]);
    }
  }

  /** Without one, exactly the notes mentioning education verification
      are dropped. */
  lemma EducationNoteDroppedIff(notes: seq<string>, note: string)
    requires note in notes
    ensures note in KeptNotes(notes, false) <==> !Contains(note, EducationMarker)
  {
  }

  /** What a fee line prints: the amount, and whether it is struck out. */
  datatype FeeLine = FeeLine(amount: int, struckOut: bool)

  /** The fee line: both branches of `fee === defaultFee` print the fee
      struck out in the same way. */
  function FeeDisplay(fee: int, defaultFee: int): (r: FeeLine)
    ensures r == FeeLine(fee, true)
  {
    if fee == defaultFee then FeeLine(fee, true) else FeeLine(fee, true)
  }

  /** So the default fee has no effect on what is printed. */
  lemma FeeDisplayIgnoresDefault(fee: int, d1: int, d2: int)
    ensures FeeDisplay(fee, d1) == FeeDisplay(fee, d2)
  {
  }
}
