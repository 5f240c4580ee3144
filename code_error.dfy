/**
 * The error value shared by every layer of the service: a machine-readable
 * code and a human-readable detail, rendered as "code - detail".
 */
module CodeError {
  import opened Wrappers

  /** What `fmt.Sprintf("%s - %s", ...)` puts between its two operands. */
  const Separator: string := " - "

  /** "left - right", the rendering of both `Error` and the handlers' API error. */
  function Format(left: string, right: string): (s: string)
    ensures |s| == |left| + |Separator| + |right|
    ensures s[..|left|] == left && s[|left| + |Separator|..] == right
    ensures SeparatorAt(s, |left|)
  {
    left + Separator + right
  }

  /** The error value; two errors are the same key only when code AND detail agree. */
  datatype Error = Error(code: string, detail: string) {

    /** The text Go's `Error()` method produces. */
    function Render(): (s: string)
      ensures |s| == |code| + |Separator| + |detail|
    {
      Format(code, detail)
    }

    /** The code: the text of `Render()` in front of the separator that the detail follows. */
    function GetCode(): (c: string)
      ensures |c| <= |Render()| && Render()[..|c|] == c
      ensures SeparatorAt(Render(), |c|)
      ensures |c| + |Separator| + |detail| == |Render()|
    {
      code
    }

    /** The detail: the text of `Render()` after the separator that follows the code. */
    function GetDetail(): (d: string)
      ensures |d| <= |Render()| && Render()[|Render()| - |d|..] == d
      ensures |code| + |Separator| + |d| == |Render()|
    {
      detail
    }
  }

  /** A Go `error` as the handlers receive it: one of the coded errors, or any other error with its text. */
  datatype AnyError = Coded(error: Error) | Plain(message: string) {

    /** What the error's `Error()` method answers. */
    function Text(): string {
      match this
      case Coded(e) => e.Render()
      case Plain(m) => m
    }
  }

  /** The three characters of the separator start at position `i` of `s`. */
  predicate SeparatorAt(s: string, i: int) {
    0 <= i && i + 3 <= |s| && s[i] == ' ' && s[i + 1] == '-' && s[i + 2] == ' '
  }

  /** The first position at or after `from` where the separator starts. */
  function FindSeparator(s: string, from: nat): (k: Option<nat>)
    decreases |s| - from
    ensures k.Some? ==> from <= k.value && SeparatorAt(s, k.value)
    ensures k.Some? ==> forall j :: from <= j < k.value ==> !SeparatorAt(s, j)
    ensures k.None? ==> forall j :: from <= j ==> !SeparatorAt(s, j)
  {
    if from + 3 > |s| then None
    else if SeparatorAt(s, from) then Some(from)
    else FindSeparator(s, from + 1)
  }

  /** Reads an error back from its rendering, splitting at the first separator. */
  function Parse(s: string): (e: Option<Error>)
    ensures e.Some? ==> e.value.Render() == s
  {
    match FindSeparator(s, 0)
    case Some(k) =>
      assert s == s[..k] + Separator + s[k + 3..];
      Some(Error(s[..k], s[k + 3..]))
    case None => None
  }

  /** No character of `s` is a dash, as in every code the service defines. */
  predicate DashFree(s: string) {
    forall i :: 0 <= i < |s| ==> s[i] != '-'
  }

  /** Rendering loses nothing when the code holds no dash: the rendering parses back to the error. */
  lemma {:induction false} RenderRoundTrip(e: Error)
    requires DashFree(e.code)
    ensures Parse(e.Render()) == Some(e)
  {
    var s := e.Render();
    var n := |e.code|;
    assert SeparatorAt(s, n);
    forall j | 0 <= j < n ensures !SeparatorAt(s, j) {
      if j + 1 < n {
        assert s[j + 1] == e.code[j + 1];
      } else {
        assert s[j + 1] == Separator[0];
      }
    }
    var k := FindSeparator(s, 0);
    assert k == Some(n);
    assert s[..n] == e.code && s[n + 3..] == e.detail;
  }

  /** With dashes allowed in a code, two different errors can render to the same text. */
  lemma RenderNotInjectiveWithDashes()
    ensures Error("a - b", "c") != Error("a", "b - c")
    ensures Error("a - b", "c").Render() == Error("a", "b - c").Render()
  {
  }

  /** Two errors with dash-free codes render alike only if they are the same error. */
  lemma RenderInjective(e1: Error, e2: Error)
    requires DashFree(e1.code) && DashFree(e2.code)
    requires e1.Render() == e2.Render()
    ensures e1 == e2
  {
    RenderRoundTrip(e1);
    RenderRoundTrip(e2);
  }
}
