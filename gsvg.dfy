/**
 * The package entry point of index.js: tokenize, render, then drop blank lines
 * and join the rest with newlines, ending with one newline. The promise chain
 * of the source becomes a `Result`; a rejection is a `Failure`.
 */
module Gsvg {
  import opened Wrappers
  import opened Text
  import Scanner
  import Parser
  import Renderer

  /** Why a call is rejected: the scanner reported an error, or an option is not a valid indent. */
  datatype Error = ParseError(message: string) | ConfigError(error: Renderer.ConfigError)

  /** `opt || {}`: a missing (falsy) options argument is an empty options record. */
  function OptionsOrEmpty(opt: Option<Renderer.Options>): (r: Renderer.Options)
    ensures opt.None? ==> r.shiftwidth.None? && r.attrExtraIndent.None?
    ensures opt.Some? ==> r == opt.value
  {
    opt.GetOr(Renderer.Options(None, None))
  }

  /**
   * `getLines`, exported as `.array`: the renderer's lines for the tokens of the
   * document, unfiltered. A scanner error is reported before the options are
   * looked at.
   */
  function GetLines(events: seq<Scanner.Event>, opt: Option<Renderer.Options>): (r: Result<seq<string>, Error>)
    ensures !Scanner.NoErrors(events) ==> r == Failure(ParseError(Parser.Tokenization(events).error))
    ensures r.Success? <==> Scanner.NoErrors(events) && Renderer.NormalizeOptions(OptionsOrEmpty(opt)).Success?
    ensures r.Success? ==>
      r.value == Renderer.Rendered(Parser.Tokenization(events).value, Renderer.NormalizeOptions(OptionsOrEmpty(opt)).value)
    ensures Scanner.NoErrors(events) && r.Failure? ==>
      r.error == ConfigError(Renderer.NormalizeOptions(OptionsOrEmpty(opt)).error)
  {
    match Parser.Tokenization(events)
    case Failure(message) => Failure(ParseError(message))
    case Success(tokens) =>
      match Renderer.Rendering(tokens, OptionsOrEmpty(opt))
      case Failure(e) => Failure(ConfigError(e))
      case Success(lines) => Success(lines)
  }

  /** `removeBlankStrings`: the lines that are not blank, in their original order. */
  function RemoveBlankStrings(lines: seq<string>): (r: seq<string>)
    ensures |r| <= |lines|
    ensures forall k | 0 <= k < |r| :: !IsBlank(r[k])
    ensures forall x :: x in r <==> x in lines && !IsBlank(x)
  {
    if lines == [] then []
    else (if IsBlank(lines[0]) then [] else [lines[0]]) + RemoveBlankStrings(lines[1..])
  }

  /** Filtering distributes over concatenation, so the kept lines keep their relative order. */
  lemma {:induction false} RemoveBlankStringsConcat(a: seq<string>, b: seq<string>)
    ensures RemoveBlankStrings(a + b) == RemoveBlankStrings(a) + RemoveBlankStrings(b)
  {
    if a != [] {
      assert (a + b)[0] == a[0];
      assert (a + b)[1..] == a[1..] + b;
      RemoveBlankStringsConcat(a[1..], b);
    } else {
      assert a + b == b;
    }
  }

  /** When no line is blank, nothing is removed. */
  lemma {:induction false} RemoveBlankStringsKeepsAll(lines: seq<string>)
    requires forall k | 0 <= k < |lines| :: !IsBlank(lines[k])
    ensures RemoveBlankStrings(lines) == lines
  {
    if lines != [] {
      RemoveBlankStringsKeepsAll(lines[1..]);
      assert lines == [lines[0]] + lines[1..];
    }
  }

  /** The exported formatter: the non-blank lines joined with newlines, and one final newline. */
  function Format(events: seq<Scanner.Event>, opt: Option<Renderer.Options>): (r: Result<string, Error>)
    ensures r.Success? <==> GetLines(events, opt).Success?
    ensures r.Failure? ==> r.error == GetLines(events, opt).error
    ensures r.Success? ==> r.value == Join(RemoveBlankStrings(GetLines(events, opt).value)) + "\n"
    ensures r.Success? ==> |r.value| >= 1 && r.value[|r.value| - 1] == '\n'
  {
    match GetLines(events, opt)
    case Failure(e) => Failure(e)
    case Success(lines) => Success(Join(RemoveBlankStrings(lines)) + "\n")
  }

  /** When `.array` holds no blank line, the formatter's output is that array joined, plus a newline. */
  lemma FormatOfNonBlankLines(events: seq<Scanner.Event>, opt: Option<Renderer.Options>)
    requires GetLines(events, opt).Success?
    requires var lines := GetLines(events, opt).value; forall k | 0 <= k < |lines| :: !IsBlank(lines[k])
    ensures Format(events, opt) == Success(Join(GetLines(events, opt).value) + "\n")
  {
    RemoveBlankStringsKeepsAll(GetLines(events, opt).value);
  }

  /** An empty document formats to a single newline. */
  lemma FormatOfEmptyDocument()
    ensures GetLines([], None) == Success([])
    ensures Format([], None) == Success("\n")
  {
    Parser.TokenizationOfEmpty();
    Renderer.DefaultIndents();
    assert Renderer.Groups([], Renderer.Indents("  ", "   ")) == [];
    assert RemoveBlankStrings([]) == [] && Join([]) == "";
    assert "" + "\n" == "\n";
  }

  /** Joining one more line adds a newline and that line. */
  lemma {:induction false} JoinSnoc(lines: seq<string>, line: string)
    requires |lines| >= 1
    ensures Join(lines + [line]) == Join(lines) + "\n" + line
  {
    if |lines| == 1 {
      assert lines + [line] == [lines[0], line];
    } else {
      assert (lines + [line])[1..] == lines[1..] + [line];
      JoinSnoc(lines[1..], line);
    }
  }

  /**
   * Reading the output back: when the rendered lines hold no newline and at least
   * one is not blank, splitting the output at newlines gives exactly the non-blank
   * lines, followed by the empty piece after the final newline.
   */
  lemma FormatSplitsIntoNonBlankLines(lines: seq<string>)
    requires forall k | 0 <= k < |lines| :: NoNewline(lines[k])
    requires |RemoveBlankStrings(lines)| >= 1
    ensures Split(Join(RemoveBlankStrings(lines)) + "\n") == RemoveBlankStrings(lines) + [""]
  {
    var kept := RemoveBlankStrings(lines);
    forall k | 0 <= k < |kept| ensures NoNewline(kept[k]) {
      assert kept[k] in lines;
    }
    JoinSnoc(kept, "");
    assert forall k | 0 <= k < |kept + [""]| :: NoNewline((kept + [""])[k]) by {
      forall k | 0 <= k < |kept + [""]| ensures NoNewline((kept + [""])[k]) {
        if k < |kept| {
          assert (kept + [""])[k] == kept[k];
        }
      }
    }
    SplitJoin(kept + [""]);
    assert Join(kept) + "\n" + "" == Join(kept) + "\n";
  }

  /**
   * Reading the formatter's output back: when the lines of `.array` hold no
   * newline, splitting the output at newlines gives exactly their non-blank
   * lines and the empty piece after the final newline; when every line is
   * blank, the output is a single newline.
   */
  lemma FormatReadsBack(events: seq<Scanner.Event>, opt: Option<Renderer.Options>)
    requires GetLines(events, opt).Success?
    requires var lines := GetLines(events, opt).value; forall k | 0 <= k < |lines| :: NoNewline(lines[k])
    ensures var lines := GetLines(events, opt).value;
      (exists k | 0 <= k < |lines| :: !IsBlank(lines[k])) ==>
        Split(Format(events, opt).value) == RemoveBlankStrings(lines) + [""]
    ensures var lines := GetLines(events, opt).value;
      (forall k | 0 <= k < |lines| :: IsBlank(lines[k])) ==> Format(events, opt).value == "\n"
  {
    var lines := GetLines(events, opt).value;
    var kept := RemoveBlankStrings(lines);
    if k :| 0 <= k < |lines| && !IsBlank(lines[k]) {
      assert lines[k] in kept;
      FormatSplitsIntoNonBlankLines(lines);
    }
    if forall k | 0 <= k < |lines| :: IsBlank(lines[k]) {
      assert Join(kept) + "\n" == "\n";
    }
  }
}
