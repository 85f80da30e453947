/**
 * The title/abstract validator of the research analysis service: four independent length checks,
 * each appending its message to an error list in a fixed order. The minimum checks measure the
 * stripped text, the maximum checks the raw text.
 */
module ResearchValidation {
  import opened Text

  const TITLE_MIN_LENGTH := 5
  const ABSTRACT_MIN_LENGTH := 20
  const TITLE_MAX_LENGTH := 500
  const ABSTRACT_MAX_LENGTH := 5000

  /** The four checks, in the order they run. */
  datatype Check = TitleMin | AbstractMin | TitleMax | AbstractMax

  const TITLE_TOO_SHORT := "Title must be at least 5 characters long"
  const ABSTRACT_TOO_SHORT := "Abstract must be at least 20 characters long"
  const TITLE_TOO_LONG := "Title must be less than 500 characters"
  const ABSTRACT_TOO_LONG := "Abstract must be less than 5000 characters"

  /** The message a failing check appends. */
  function Message(c: Check): string
  {
    match c
    case TitleMin => TITLE_TOO_SHORT
    case AbstractMin => ABSTRACT_TOO_SHORT
    case TitleMax => TITLE_TOO_LONG
    case AbstractMax => ABSTRACT_TOO_LONG
  }

  /** The position of a check in the run order. */
  function Rank(c: Check): nat
  {
    match c
    case TitleMin => 0
    case AbstractMin => 1
    case TitleMax => 2
    case AbstractMax => 3
  }

  /** `not title or len(title.strip()) < 5` */
  predicate TitleTooShort(title: string)
  {
    title == [] || |Strip(title)| < TITLE_MIN_LENGTH
  }

  /** `not abstract or len(abstract.strip()) < 20` */
  predicate AbstractTooShort(abstractText: string)
  {
    abstractText == [] || |Strip(abstractText)| < ABSTRACT_MIN_LENGTH
  }

  predicate TitleTooLong(title: string)
  {
    |title| > TITLE_MAX_LENGTH
  }

  predicate AbstractTooLong(abstractText: string)
  {
    |abstractText| > ABSTRACT_MAX_LENGTH
  }

  /** Whether check `c` fails on the input. */
  predicate Fails(c: Check, title: string, abstractText: string)
  {
    match c
    case TitleMin => TitleTooShort(title)
    case AbstractMin => AbstractTooShort(abstractText)
    case TitleMax => TitleTooLong(title)
    case AbstractMax => AbstractTooLong(abstractText)
  }

  /** The failing checks among four outcomes, in run order. */
  function FailedOf(titleShort: bool, abstractShort: bool, titleLong: bool, abstractLong: bool): seq<Check>
  {
    (if titleShort then [TitleMin] else [])
    + (if abstractShort then [AbstractMin] else [])
    + (if titleLong then [TitleMax] else [])
    + (if abstractLong then [AbstractMax] else [])
  }

  /** The failing checks of an input, in run order. */
  function Failed(title: string, abstractText: string): seq<Check>
  {
    FailedOf(TitleTooShort(title), AbstractTooShort(abstractText), TitleTooLong(title), AbstractTooLong(abstractText))
  }

  /** The messages of a list of checks. */
  function Messages(cs: seq<Check>): (r: seq<string>)
    ensures |r| == |cs| && forall i :: 0 <= i < |cs| ==> r[i] == Message(cs[i])
  {
    if cs == [] then [] else [Message(cs[0])] + Messages(cs[1..])
  }

  /** The error list among four outcomes: one message per failing check, in run order. */
  function ErrorsOf(titleShort: bool, abstractShort: bool, titleLong: bool, abstractLong: bool): seq<string>
  {
    (if titleShort then [TITLE_TOO_SHORT] else [])
    + (if abstractShort then [ABSTRACT_TOO_SHORT] else [])
    + (if titleLong then [TITLE_TOO_LONG] else [])
    + (if abstractLong then [ABSTRACT_TOO_LONG] else [])
  }

  /** The error list of an input. */
  function Errors(title: string, abstractText: string): seq<string>
  {
    ErrorsOf(TitleTooShort(title), AbstractTooShort(abstractText), TitleTooLong(title), AbstractTooLong(abstractText))
  }

  /** The four appends of `validate_research_input`, given the outcome of each check. */
  method AppendErrors(titleShort: bool, abstractShort: bool, titleLong: bool, abstractLong: bool)
    returns (errors: seq<string>)
    ensures errors == ErrorsOf(titleShort, abstractShort, titleLong, abstractLong)
  {
    errors := [];
    if titleShort {
      errors := errors + [TITLE_TOO_SHORT];
    }
    if abstractShort {
      errors := errors + [ABSTRACT_TOO_SHORT];
    }
    if titleLong {
      errors := errors + [TITLE_TOO_LONG];
    }
    if abstractLong {
      errors := errors + [ABSTRACT_TOO_LONG];
    }
  }

  /**
   * `validate_research_input`: the error list holds one message per failing check, in check
   * order, and the input is valid exactly when no check failed.
   */
  method ValidateResearchInput(title: string, abstractText: string) returns (valid: bool, errors: seq<string>)
    ensures errors == Errors(title, abstractText)
    ensures valid <==> errors == []
  {
    var titleShort := title == [] || |Strip(title)| < 5;
    var abstractShort := abstractText == [] || |Strip(abstractText)| < 20;
    errors := AppendErrors(titleShort, abstractShort, |title| > 500, |abstractText| > 5000);
    valid := |errors| == 0;
  }

  /** The error list is the messages of the failing checks. */
  lemma ErrorsOfMessages(ts: bool, as_: bool, tl: bool, al: bool)
    ensures ErrorsOf(ts, as_, tl, al) == Messages(FailedOf(ts, as_, tl, al))
  {
    var f := FailedOf(ts, as_, tl, al);
    assert Messages(f) == ErrorsOf(ts, as_, tl, al);
  }

  /** Among four outcomes, a message is listed exactly when its check failed, in run order. */
  lemma ErrorsOfSpec(ts: bool, as_: bool, tl: bool, al: bool)
    ensures var r := ErrorsOf(ts, as_, tl, al);
      && (TITLE_TOO_SHORT in r <==> ts) && (ABSTRACT_TOO_SHORT in r <==> as_)
      && (TITLE_TOO_LONG in r <==> tl) && (ABSTRACT_TOO_LONG in r <==> al)
      && |r| <= 4
    ensures var f := FailedOf(ts, as_, tl, al);
      forall i, j :: 0 <= i < j < |f| ==> Rank(f[i]) < Rank(f[j])
  {
    assert |TITLE_TOO_SHORT| == 40 && |ABSTRACT_TOO_SHORT| == 44;
    assert |TITLE_TOO_LONG| == 38 && |ABSTRACT_TOO_LONG| == 42;
  }

  /**
   * Each message is reported exactly when its check fails, stripped lengths for the minimums and
   * raw lengths for the maximums; there are at most four; they are the messages of the failing
   * checks, which come in the fixed order title-min, abstract-min, title-max, abstract-max.
   */
  lemma ErrorsSpec(title: string, abstractText: string)
    ensures var r := Errors(title, abstractText);
      && (TITLE_TOO_SHORT in r <==> title == [] || |Strip(title)| < 5)
      && (ABSTRACT_TOO_SHORT in r <==> abstractText == [] || |Strip(abstractText)| < 20)
      && (TITLE_TOO_LONG in r <==> |title| > 500)
      && (ABSTRACT_TOO_LONG in r <==> |abstractText| > 5000)
      && |r| <= 4
      && r == Messages(Failed(title, abstractText))
    ensures var f := Failed(title, abstractText);
      forall i, j :: 0 <= i < j < |f| ==> Rank(f[i]) < Rank(f[j])
  {
    var ts, as_ := TitleTooShort(title), AbstractTooShort(abstractText);
    var tl, al := TitleTooLong(title), AbstractTooLong(abstractText);
    ErrorsOfSpec(ts, as_, tl, al);
    ErrorsOfMessages(ts, as_, tl, al);
  }

  /** The input is valid exactly when every check passes. */
  lemma ValidSpec(title: string, abstractText: string)
    ensures Errors(title, abstractText) == []
        <==> 5 <= |Strip(title)| && |title| <= 500 && 20 <= |Strip(abstractText)| && |abstractText| <= 5000
  {
  }

  /** A title of exactly 500 characters with at least 5 of them after stripping raises no title error. */
  lemma MaximalTitleAccepted(title: string, abstractText: string)
    requires |title| == 500 && |Strip(title)| >= 5
    ensures TITLE_TOO_SHORT !in Errors(title, abstractText) && TITLE_TOO_LONG !in Errors(title, abstractText)
  {
    ErrorsSpec(title, abstractText);
  }

  /** A title of 501 spaces fails both title checks: stripped it is empty, raw it is too long. */
  lemma SpacesFailBothTitleChecks(title: string, abstractText: string)
    requires |title| == 501 && forall i :: 0 <= i < |title| ==> title[i] == ' '
    ensures |Errors(title, abstractText)| >= 2 && Errors(title, abstractText)[0] == TITLE_TOO_SHORT
    ensures TITLE_TOO_LONG in Errors(title, abstractText)
  {
    StripAllSpace(title);
    ErrorsSpec(title, abstractText);
  }
}
