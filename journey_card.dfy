/**
 * The card that lists a saved journey in the control panel.
 */
module JourneyCard {
  import opened Types
  import opened JsNumber
  import opened IdChecks
  import opened AgreementContext

  /** What the card shows and what its buttons send. */
  datatype Card = Card(title: string, countLabel: string, badges: seq<string>, total: int, editId: string, deleteId: string)

  /** `checkCount`: every key, selected or not. */
  function CheckCount(j: Journey): (n: nat)
    ensures n == |Keys(j.selectedChecks)|
  {
    |j.selectedChecks|
  }

  /** `check{checkCount !== 1 ? 's' : ''}`. */
  function Plural(n: nat): (s: string)
    ensures s == "" <==> n == 1
  {
    if n != 1 then "s" else ""
  }

  function RenderCard(j: Journey): (c: Card)
    ensures c.countLabel == Decimal(CheckCount(j)) + " check" + Plural(CheckCount(j)) + " selected"
    ensures c.badges == TrueKeys(j.selectedChecks)
    ensures c.title == j.name && c.total == j.totalPrice
    ensures c.editId == j.id && c.deleteId == j.id
  {
    var n := CheckCount(j);
    Card(j.name, Decimal(n) + " check" + Plural(n) + " selected", TrueKeys(j.selectedChecks), j.totalPrice, j.id, j.id)
  }

  /** The badges never outnumber the count, and match it exactly when no
      flag is false. */
  lemma {:induction false} BadgesAgainstCount(f: Flags)
    ensures |TrueKeys(f)| <= |f|
    ensures |TrueKeys(f)| == |f| <==> forall e :: e in f ==> e.1
  {
    if f != [] {
      BadgesAgainstCount(f[1..]);
      assert forall e :: e in f ==> e == f[0] || e in f[1..];
      if !f[0].1 {
        assert f[0] in f;
      }
    }
  }

  /** The card's delete button removes this journey from the list. */
  lemma DeleteButtonRemovesJourney(cat: Catalog, s: State, i: nat, clock: string)
    requires i < |s.journeys|
    ensures s.journeys[i] !in Reduce(cat, s, DeleteJourney(RenderCard(s.journeys[i]).deleteId), clock).journeys
  {
  }
}
