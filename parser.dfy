/**
 * The tokenizer of lib/parser.js: listeners on the scanner's events that build
 * a flat list of tokens, each annotated with its nesting depth. The module-level
 * `tokens`, `skipCloseTag` and `activeTagStack` of the source become the fields
 * of a `Tokenizer` object created afresh by every call of `Parse`.
 */
module Parser {
  import opened Wrappers
  import opened Text
  import Scanner

  /**
   * A token. `depth` is the `indentLevel` the source attaches: the number of
   * entries on the active-tag stack when the token is built.
   */
  datatype Token =
    | ProcessingInstruction(target: string, body: string, depth: nat)
    | Doctype(body: string, depth: nat)
    | CData(body: string, depth: nat)
    | OpenTag(name: string, attributes: seq<Scanner.Attribute>, isSelfClosing: bool, depth: nat)
    | CloseTag(name: string, depth: nat)
    | Comment(body: string, depth: nat)
    | TextNode(body: string, depth: nat)

  /** The tokenizer's state between two events. */
  datatype State = State(tokens: seq<Token>, skipCloseTag: bool, activeTagStack: seq<string>)

  /** The state every call starts from. */
  const Initial := State([], false, [])

  /** `Array.prototype.pop` with its result ignored: removes the last entry, if any. */
  function Pop(stack: seq<string>): (r: seq<string>)
    ensures |stack| > 0 ==> r + [stack[|stack| - 1]] == stack
    ensures |stack| == 0 ==> r == []
  {
    if |stack| == 0 then stack else stack[..|stack| - 1]
  }

  /** What the listener for event `e` does to the state (errors are handled by `Run`). */
  function Step(st: State, e: Scanner.Event): (r: State)
    requires !e.Error?
    // tokens are only appended, one at most, and earlier ones never change
    ensures st.tokens <= r.tokens && |r.tokens| <= |st.tokens| + 1
    // a new token's depth is the stack length at the moment it is built
    ensures |r.tokens| > |st.tokens| ==> r.tokens[|st.tokens|].depth == |if e.OpenTag? then st.activeTagStack else r.activeTagStack|
    // only open and close events touch the stack and the one-shot flag
    ensures !e.OpenTag? && !e.CloseTag? ==> r.activeTagStack == st.activeTagStack && r.skipCloseTag == st.skipCloseTag
    ensures e.OpenTag? ==>
      && r.activeTagStack == st.activeTagStack + [e.name]
      && r.skipCloseTag == (st.skipCloseTag || e.isSelfClosing)
      && r.tokens == st.tokens + [OpenTag(e.name, e.attributes, e.isSelfClosing, |st.activeTagStack|)]
    // a close pops first; it emits a token unless the one-shot flag is set, and always clears the flag
    ensures e.CloseTag? ==>
      && r.activeTagStack == Pop(st.activeTagStack)
      && !r.skipCloseTag
      && r.tokens == st.tokens + (if st.skipCloseTag then [] else [CloseTag(e.name, |r.activeTagStack|)])
    // a text run becomes a token iff it is not all whitespace or a `text` element is open
    ensures e.Text? ==>
      (|r.tokens| > |st.tokens| <==> (!IsBlank(e.body) || "text" in st.activeTagStack))
    // payloads are stored as the scanner gives them
    ensures e.ProcessingInstruction? ==> r.tokens == st.tokens + [ProcessingInstruction(e.target, e.body, |st.activeTagStack|)]
    ensures e.Doctype? ==> r.tokens == st.tokens + [Doctype(e.body, |st.activeTagStack|)]
    ensures e.CData? ==> r.tokens == st.tokens + [CData(e.body, |st.activeTagStack|)]
    ensures e.Comment? ==> r.tokens == st.tokens + [Comment(e.body, |st.activeTagStack|)]
    ensures e.Text? && |r.tokens| > |st.tokens| ==> r.tokens[|st.tokens|] == TextNode(e.body, |st.activeTagStack|)
  {
    var depth := |st.activeTagStack|;
    match e
    case ProcessingInstruction(target, body) =>
      st.(tokens := st.tokens + [ProcessingInstruction(target, body, depth)])
    case Doctype(body) =>
      st.(tokens := st.tokens + [Doctype(body, depth)])
    case CData(body) =>
      st.(tokens := st.tokens + [CData(body, depth)])
    case OpenTag(name, attributes, isSelfClosing) =>
      State(st.tokens + [OpenTag(name, attributes, isSelfClosing, depth)],
            st.skipCloseTag || isSelfClosing,
            st.activeTagStack + [name])
    case CloseTag(name) =>
      var stack := Pop(st.activeTagStack);
      if st.skipCloseTag then State(st.tokens, false, stack)
      else State(st.tokens + [CloseTag(name, |stack|)], false, stack)
    case Comment(body) =>
      st.(tokens := st.tokens + [Comment(body, depth)])
    case Text(body) =>
      if "text" in st.activeTagStack || !IsBlank(body) then st.(tokens := st.tokens + [TextNode(body, depth)])
      else st
  }

  /** Feeds `events` to the listeners in order; the first error event decides the outcome. */
  function Run(st: State, events: seq<Scanner.Event>): (r: Result<State, string>)
    ensures r.Failure? <==> !Scanner.NoErrors(events)
    ensures r.Success? ==> st.tokens <= r.value.tokens
    decreases |events|
  {
    if events == [] then Success(st)
    else if events[0].Error? then Failure(events[0].message)
    else
      var r := Run(Step(st, events[0]), events[1..]);
      assert Scanner.NoErrors(events) <==> Scanner.NoErrors(events[1..]);
      r
  }

  /** The result of the exported parser function: the token list, or the scanner's first error. */
  function Tokenization(events: seq<Scanner.Event>): (r: Result<seq<Token>, string>)
    ensures r.Failure? <==> !Scanner.NoErrors(events)
  {
    match Run(Initial, events)
    case Success(st) => Success(st.tokens)
    case Failure(message) => Failure(message)
  }

  /** An empty document yields no tokens. */
  lemma TokenizationOfEmpty()
    ensures Tokenization([]) == Success([])
  {
  }

  /** Any error event makes the call fail, with the message of the first one. */
  lemma {:induction false} FirstErrorWins(events: seq<Scanner.Event>, i: nat)
    requires i < |events| && events[i].Error?
    requires Scanner.NoErrors(events[..i])
    ensures Tokenization(events) == Failure(events[i].message)
  {
    FirstErrorFrom(Initial, events, i);
  }

  lemma {:induction false} FirstErrorFrom(st: State, events: seq<Scanner.Event>, i: nat)
    requires i < |events| && events[i].Error?
    requires Scanner.NoErrors(events[..i])
    ensures Run(st, events) == Failure(events[i].message)
    decreases i
  {
    if i > 0 {
      assert !events[..i][0].Error?;
      assert events[1..][..i - 1] == events[..i][1..];
      FirstErrorFrom(Step(st, events[0]), events[1..], i - 1);
    }
  }

  /** Running two stretches of events one after the other is running their concatenation. */
  lemma {:induction false} RunConcat(st: State, a: seq<Scanner.Event>, b: seq<Scanner.Event>)
    requires Scanner.NoErrors(a)
    ensures Run(st, a).Success?
    ensures Run(st, a + b) == Run(Run(st, a).value, b)
    decreases |a|
  {
    if a == [] {
      assert a + b == b;
    } else {
      assert (a + b)[0] == a[0];
      assert (a + b)[1..] == a[1..] + b;
      assert Scanner.NoErrors(a[1..]);
      RunConcat(Step(st, a[0]), a[1..], b);
    }
  }

  /**
   * Stack discipline: while the running open/close balance never takes the stack
   * below `floor` entries, the bottom `floor` entries survive and the length moves
   * by the balance.
   */
  lemma {:induction false} StackShape(st: State, events: seq<Scanner.Event>, floor: nat)
    requires Scanner.NoErrors(events)
    requires floor <= |st.activeTagStack|
    requires forall k | 0 <= k <= |events| :: |st.activeTagStack| + Scanner.Count(events[..k]) >= floor
    ensures Run(st, events).Success?
    ensures |Run(st, events).value.activeTagStack| == |st.activeTagStack| + Scanner.Count(events) >= floor
    ensures Run(st, events).value.activeTagStack[..floor] == st.activeTagStack[..floor]
    decreases |events|
  {
    assert events[..|events|] == events;
    if events != [] {
      var next := Step(st, events[0]);
      assert events[..1][1..] == [];
      assert |st.activeTagStack| + Scanner.Count(events[..1]) >= floor;
      forall k | 0 <= k <= |events| - 1
        ensures |next.activeTagStack| + Scanner.Count(events[1..][..k]) >= floor
      {
        assert events[..k + 1][1..] == events[1..][..k];
        assert |st.activeTagStack| + Scanner.Count(events[..k + 1]) >= floor;
      }
      assert Scanner.NoErrors(events[1..]);
      StackShape(next, events[1..], floor);
    }
  }

  /** With the scanner's synthetic closes in place, the one-shot flag is clear again after any stretch of events. */
  lemma {:induction false} SkipCleared(st: State, events: seq<Scanner.Event>)
    requires !st.skipCloseTag
    requires Scanner.NoErrors(events) && Scanner.SelfClosingClosed(events)
    ensures Run(st, events).Success? && !Run(st, events).value.skipCloseTag
    decreases |events|
  {
    if events != [] {
      var e := events[0];
      if e.OpenTag? && e.isSelfClosing {
        var after := Step(Step(st, e), events[1]);
        assert events[1..][1..] == events[2..];
        assert Scanner.NoErrors(events[2..]);
        assert Scanner.SelfClosingClosed(events[2..]) by {
          forall i | 0 <= i < |events| - 2 && events[2..][i].OpenTag? && events[2..][i].isSelfClosing
            ensures i + 1 < |events| - 2 && events[2..][i + 1].CloseTag?
          {
            assert events[i + 2] == events[2..][i];
          }
        }
        SkipCleared(after, events[2..]);
      } else {
        assert Scanner.NoErrors(events[1..]);
        assert Scanner.SelfClosingClosed(events[1..]) by {
          forall i | 0 <= i < |events| - 1 && events[1..][i].OpenTag? && events[1..][i].isSelfClosing
            ensures i + 1 < |events| - 1 && events[1..][i + 1].CloseTag?
          {
            assert events[i + 1] == events[1..][i];
          }
        }
        SkipCleared(Step(st, e), events[1..]);
      }
    }
  }

  /** Running an element's events is running its open event, then its content, then its close event. */
  lemma RunElement(st: State, open: Scanner.Event, inner: seq<Scanner.Event>, close: Scanner.Event)
    requires open.OpenTag? && close.CloseTag? && Scanner.NoErrors(inner)
    ensures Run(Step(st, open), inner).Success?
    ensures Run(st, [open] + inner + [close]) == Success(Step(Run(Step(st, open), inner).value, close))
  {
    var entered := Step(st, open);
    assert [open] + inner + [close] == [open] + (inner + [close]);
    RunConcat(st, [open], inner + [close]);
    assert Run(st, [open]) == Success(entered) by {
      assert [open][1..] == [];
    }
    RunConcat(entered, inner, [close]);
    var mid := Run(entered, inner).value;
    assert Run(mid, [close]) == Success(Step(mid, close)) by {
      assert [close][1..] == [];
    }
  }

  /**
   * A close-tag token has the depth of its matching open-tag token: after an
   * element that is not self-closing, with balanced content in between, the
   * open token sits at the stack length before the element and the close
   * token at the same depth, directly after the content's tokens.
   */
  lemma MatchingCloseDepth(st: State, name: string, attributes: seq<Scanner.Attribute>, inner: seq<Scanner.Event>)
    requires !st.skipCloseTag
    requires Scanner.NoErrors(inner) && Scanner.SelfClosingClosed(inner) && Scanner.Balanced(inner)
    ensures var events := [Scanner.OpenTag(name, attributes, false)] + inner + [Scanner.CloseTag(name)];
      && Run(st, events).Success?
      && var tokens := Run(st, events).value.tokens;
      && |tokens| >= |st.tokens| + 2
      && tokens[|st.tokens|] == OpenTag(name, attributes, false, |st.activeTagStack|)
      && tokens[|tokens| - 1] == CloseTag(name, |st.activeTagStack|)
      && Run(st, events).value.activeTagStack == st.activeTagStack
  {
    var open := Scanner.OpenTag(name, attributes, false);
    var close := Scanner.CloseTag(name);
    RunElement(st, open, inner, close);
    var entered := Step(st, open);
    StackShape(entered, inner, |entered.activeTagStack|);
    SkipCleared(entered, inner);
    var mid := Run(entered, inner).value;
    assert mid.activeTagStack == st.activeTagStack + [name] by {
      assert mid.activeTagStack[..|entered.activeTagStack|] == entered.activeTagStack;
    }
    var last := Step(mid, close);
    assert Pop(mid.activeTagStack) == st.activeTagStack;
    assert entered.tokens <= mid.tokens;
  }

  /** A self-closing tag and its synthetic close produce the open token alone and leave the stack and flag as they were. */
  lemma SelfClosingSuppressed(st: State, name: string, attributes: seq<Scanner.Attribute>)
    requires !st.skipCloseTag
    ensures Run(st, [Scanner.OpenTag(name, attributes, true), Scanner.CloseTag(name)])
         == Success(State(st.tokens + [OpenTag(name, attributes, true, |st.activeTagStack|)], false, st.activeTagStack))
  {
    var events := [Scanner.OpenTag(name, attributes, true), Scanner.CloseTag(name)];
    var afterOpen := Step(st, events[0]);
    assert afterOpen.skipCloseTag && afterOpen.activeTagStack == st.activeTagStack + [name];
    var afterClose := Step(afterOpen, events[1]);
    assert afterClose.tokens == afterOpen.tokens;
    assert events[1..] == [events[1]];
    assert Run(afterOpen, events[1..]) == Run(afterClose, []);
    assert Pop(st.activeTagStack + [name]) == st.activeTagStack;
  }

  /**
   * The tokenizer object of one call: the source's module-level `tokens`,
   * `skipCloseTag` and `activeTagStack`, with one method per scanner listener.
   */
  class Tokenizer {
    var tokens: seq<Token>
    var skipCloseTag: bool
    var activeTagStack: seq<string>

    function Snapshot(): State
      reads this
    {
      State(tokens, skipCloseTag, activeTagStack)
    }

    /** The reset at the start of each call. */
    constructor ()
      ensures Snapshot() == Initial
    {
      tokens := [];
      skipCloseTag := false;
      activeTagStack := [];
    }

    method OnProcessingInstruction(target: string, body: string)
      modifies this
      ensures Snapshot() == Step(old(Snapshot()), Scanner.ProcessingInstruction(target, body))
    {
      var node := ProcessingInstruction(target, body, |activeTagStack|);
      tokens := tokens + [node];
    }

    method OnDoctype(body: string)
      modifies this
      ensures Snapshot() == Step(old(Snapshot()), Scanner.Doctype(body))
    {
      var node := Doctype(body, |activeTagStack|);
      tokens := tokens + [node];
    }

    method OnCData(body: string)
      modifies this
      ensures Snapshot() == Step(old(Snapshot()), Scanner.CData(body))
    {
      var node := CData(body, |activeTagStack|);
      tokens := tokens + [node];
    }

    method OnOpenTag(name: string, attributes: seq<Scanner.Attribute>, isSelfClosing: bool)
      modifies this
      ensures Snapshot() == Step(old(Snapshot()), Scanner.OpenTag(name, attributes, isSelfClosing))
    {
      var node := OpenTag(name, attributes, isSelfClosing, |activeTagStack|);
      activeTagStack := activeTagStack + [name]; // after the depth is taken
      if isSelfClosing {
        skipCloseTag := true;
      }
      tokens := tokens + [node];
    }

    method OnCloseTag(name: string)
      modifies this
      ensures Snapshot() == Step(old(Snapshot()), Scanner.CloseTag(name))
    {
      if |activeTagStack| > 0 { // before the depth is taken
        activeTagStack := activeTagStack[..|activeTagStack| - 1];
      }
      var node := CloseTag(name, |activeTagStack|);
      if skipCloseTag {
        skipCloseTag := false;
        return;
      }
      tokens := tokens + [node];
    }

    method OnComment(body: string)
      modifies this
      ensures Snapshot() == Step(old(Snapshot()), Scanner.Comment(body))
    {
      var node := Comment(body, |activeTagStack|);
      tokens := tokens + [node];
    }

    method OnText(body: string)
      modifies this
      ensures Snapshot() == Step(old(Snapshot()), Scanner.Text(body))
    {
      var isInsideTextNode := "text" in activeTagStack;
      var isWhitespace := IsBlank(body);
      var node := TextNode(body, |activeTagStack|);
      if isInsideTextNode || !isWhitespace {
        tokens := tokens + [node];
      }
    }
  }

  /**
   * The exported parser: a fresh tokenizer receives the events in order; the
   * first error event makes the call fail with the scanner's message.
   */
  method Parse(events: seq<Scanner.Event>) returns (r: Result<seq<Token>, string>)
    ensures r == Tokenization(events)
    ensures r.Failure? <==> !Scanner.NoErrors(events)
  {
    var tokenizer := new Tokenizer();
    var i := 0;
    while i < |events|
      invariant 0 <= i <= |events|
      invariant Run(Initial, events) == Run(tokenizer.Snapshot(), events[i..])
    {
      assert events[i..][1..] == events[i + 1..];
      match events[i] {
        case Error(message) =>
          return Failure(message);
        case ProcessingInstruction(target, body) =>
          tokenizer.OnProcessingInstruction(target, body);
        case Doctype(body) =>
          tokenizer.OnDoctype(body);
        case CData(body) =>
          tokenizer.OnCData(body);
        case OpenTag(name, attributes, isSelfClosing) =>
          tokenizer.OnOpenTag(name, attributes, isSelfClosing);
        case CloseTag(name) =>
          tokenizer.OnCloseTag(name);
        case Comment(body) =>
          tokenizer.OnComment(body);
        case Text(body) =>
          tokenizer.OnText(body);
      }
      i := i + 1;
    }
    return Success(tokenizer.tokens);
  }
}
