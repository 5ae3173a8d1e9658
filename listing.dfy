/** The ticket listing that the two trovaunposto.it scripts read: one
    `div.ticket-info.showing` per ticket, and in it a departure-time, a
    route and a price element, each of which may be missing. */
module Listing {
  import opened Text

  /** The text of the three elements of one ticket, None when the element
      is absent. */
  datatype Ticket = Ticket(time: Option<string>, route: Option<string>, price: Option<string>)

  /** What fetching and parsing a listing page gives: the tickets in page
      order, or the text of the exception that the request, raise_for_status()
      or the parser raised. */
  datatype Page = Loaded(tickets: seq<Ticket>) | Failed(error: string)

  const Unknown := "N/D"

  lemma UnknownCollapsed()
    ensures IsCollapsed(Unknown) && Collapse(Unknown) == Unknown
  {
    assert IsWord(Unknown);
    assert Join(" ", [Unknown]) == Unknown;
    CollapseOfJoin([Unknown]);
  }

  /** No character of `s` ends a line: neither a line feed nor a carriage
      return. */
  predicate SingleLine(s: string) {
    forall i :: 0 <= i < |s| ==> s[i] != '\n' && s[i] != '\r'
  }

  lemma SingleLineAppend(a: string, b: string)
    requires SingleLine(a) && SingleLine(b)
    ensures SingleLine(a + b)
  {
    forall i | 0 <= i < |a + b|
      ensures (a + b)[i] != '\n' && (a + b)[i] != '\r'
    {
      if i < |a| {
        assert (a + b)[i] == a[i];
      } else {
        assert (a + b)[i] == b[i - |a|];
      }
    }
  }

  /** `" ".join(el.text.strip().split()) if el else "N/D"`: one line, and
      "N/D" when the element is missing. */
  function Field(e: Option<string>): (r: string)
    ensures SingleLine(r)
    ensures e.None? ==> r == Unknown
  {
    match e
    case None =>
      assert SingleLine(Unknown);
      Unknown
    case Some(text) =>
      CollapseIsCollapsed(text);
      Collapse(text)
  }

  /** A field is collapsed: no leading or trailing whitespace and only single
      spaces between words. */
  lemma FieldCollapsed(e: Option<string>)
    ensures IsCollapsed(Field(e))
  {
    match e
    case None => UnknownCollapsed();
    case Some(text) => CollapseIsCollapsed(text);
  }

  /** Collapsing a field again changes nothing. */
  lemma FieldIdempotent(e: Option<string>)
    ensures Collapse(Field(e)) == Field(e)
  {
    match e
    case None => UnknownCollapsed();
    case Some(text) => CollapseIdempotent(text);
  }

  /** `{orario} | {tratta} | <b>{prezzo}</b>`, the part of a ticket line the
      two scripts share; it is one line, since no field holds a line feed. */
  function TicketText(t: Ticket): (r: string)
    ensures SingleLine(r)
  {
    var time, route, price := Field(t.time), Field(t.route), Field(t.price);
    var bar, bold, unbold := " | ", " | <b>", "</b>";
    assert SingleLine(bar) && SingleLine(bold) && SingleLine(unbold);
    SingleLineAppend(time, bar);
    SingleLineAppend(time + bar, route);
    SingleLineAppend(time + bar + route, bold);
    SingleLineAppend(time + bar + route + bold, price);
    SingleLineAppend(time + bar + route + bold + price, unbold);
    time + bar + route + bold + price + unbold
  }
}
