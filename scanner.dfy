/**
 * The events the strict-mode XML scanner (`sax`) delivers to the tokenizer's
 * listeners. The scanner itself is not modelled: a document is given as the
 * sequence of events the scanner would report for it, in order.
 */
module Scanner {

  /** One attribute of an open tag, as the scanner reports it. */
  datatype Attribute = Attribute(name: string, value: string)

  datatype Event =
    | ProcessingInstruction(target: string, body: string)
    | Doctype(body: string)
    | CData(body: string)
    | OpenTag(name: string, attributes: seq<Attribute>, isSelfClosing: bool)
    | CloseTag(name: string)
    | Comment(body: string)
    | Text(body: string)
    | Error(message: string)

  predicate NoErrors(events: seq<Event>)
  {
    forall i | 0 <= i < |events| :: !events[i].Error?
  }

  /**
   * The scanner follows the open event of a self-closing tag (`<a/>`)
   * immediately with a synthetic close event for the same tag.
   */
  predicate SelfClosingClosed(events: seq<Event>)
  {
    forall i | 0 <= i < |events| && events[i].OpenTag? && events[i].isSelfClosing ::
      i + 1 < |events| && events[i + 1].CloseTag?
  }

  /** Open events minus close events. */
  function Count(events: seq<Event>): int
  {
    if events == [] then 0
    else (if events[0].OpenTag? then 1 else if events[0].CloseTag? then -1 else 0) + Count(events[1..])
  }

  /** Every close event has an earlier open event it can pair with, and none is left open. */
  predicate Balanced(events: seq<Event>)
  {
    && (forall k | 0 <= k <= |events| :: Count(events[..k]) >= 0)
    && Count(events) == 0
  }
}
