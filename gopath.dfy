/**
 * A model of Go's `path.Clean` and of `filepath.Dir` on a system whose
 * separator is '/'. Clean works on the list of path elements: it splits the
 * path at slashes (so repeated slashes collapse), drops "." elements, lets an
 * inner ".." remove the element before it, drops a ".." that follows the root
 * of a rooted path, and renders an empty relative result as ".".
 */
module GoPath {

  /** A path element: non-empty and without a slash. */
  predicate IsElem(e: string) { e != "" && '/' !in e }

  predicate AllElems(es: seq<string>) { forall i :: 0 <= i < |es| ==> IsElem(es[i]) }

  predicate Rooted(s: string) { |s| > 0 && s[0] == '/' }

  /** The longest prefix of `s` without a slash. */
  function Word(s: string): (w: string)
    ensures w <= s && '/' !in w
    ensures |w| < |s| ==> s[|w|] == '/'
    ensures s != [] && s[0] != '/' ==> w != []
  {
    if s == [] || s[0] == '/' then [] else [s[0]] + Word(s[1..])
  }

  /** The non-empty slash-separated elements of `s`, in order. */
  function Split(s: string): (es: seq<string>)
    ensures AllElems(es)
    decreases |s|
  {
    if s == [] then []
    else if s[0] == '/' then Split(s[1..])
    else var w := Word(s); [w] + Split(s[|w|..])
  }

  /** Elements joined with single slashes. */
  function Join(es: seq<string>): string {
    if es == [] then "" else if |es| == 1 then es[0] else es[0] + "/" + Join(es[1..])
  }

  /** Processes one element against the stack of elements kept so far. */
  function Step(rooted: bool, stack: seq<string>, e: string): seq<string> {
    if e == "." then stack
    else if e == ".." then
      if |stack| > 0 && stack[|stack| - 1] != ".." then stack[..|stack| - 1]   // inner ".." removes its parent
      else if rooted then stack                                             // ".." right after the root is dropped
      else stack + [".."]                                                   // leading ".." of a relative path is kept
    else stack + [e]
  }

  function Resolve(rooted: bool, stack: seq<string>, es: seq<string>): seq<string>
    decreases |es|
  {
    if es == [] then stack else Resolve(rooted, Step(rooted, stack, es[0]), es[1..])
  }

  function Render(rooted: bool, es: seq<string>): string {
    if rooted then "/" + Join(es) else if es == [] then "." else Join(es)
  }

  /** The element list that `Clean(s)` renders. */
  function Elements(s: string): seq<string> {
    Resolve(Rooted(s), [], Split(s))
  }

  /** Go's `path.Clean`. */
  function Clean(s: string): string {
    Render(Rooted(s), Elements(s))
  }

  /**
   * The element lists `Clean` can produce: no ".", no ".." at all in a rooted
   * path, and in a relative path every ".." comes before every other element.
   */
  predicate Normal(rooted: bool, es: seq<string>) {
    && AllElems(es)
    && (forall i :: 0 <= i < |es| ==> es[i] != ".")
    && (rooted ==> forall i :: 0 <= i < |es| ==> es[i] != "..")
    && (forall i, j :: 0 <= i < j < |es| && es[j] == ".." ==> es[i] == "..")
  }

  lemma StepKeepsNormal(rooted: bool, stack: seq<string>, e: string)
    requires Normal(rooted, stack) && IsElem(e)
    ensures Normal(rooted, Step(rooted, stack, e))
  {
  }

  lemma {:induction false} ResolveIsNormal(rooted: bool, stack: seq<string>, es: seq<string>)
    requires Normal(rooted, stack) && AllElems(es)
    ensures Normal(rooted, Resolve(rooted, stack, es))
    decreases |es|
  {
    if es != [] {
      StepKeepsNormal(rooted, stack, es[0]);
      ResolveIsNormal(rooted, Step(rooted, stack, es[0]), es[1..]);
    }
  }

  /** Resolving an already normal list changes nothing. */
  lemma {:induction false} ResolveNormalIsIdentity(rooted: bool, stack: seq<string>, es: seq<string>)
    requires Normal(rooted, stack + es)
    ensures Resolve(rooted, stack, es) == stack + es
    decreases |es|
  {
    if es != [] {
      var all := stack + es;
      assert all[|stack|] == es[0];
      if es[0] == ".." {
        assert forall i :: 0 <= i < |stack| ==> stack[i] == all[i];
      }
      assert Step(rooted, stack, es[0]) == stack + [es[0]];
      assert stack + [es[0]] + es[1..] == all;
      ResolveNormalIsIdentity(rooted, stack + [es[0]], es[1..]);
    }
  }

  lemma {:induction false} WordOfElem(w: string, t: string)
    requires IsElem(w) && (t == [] || t[0] == '/')
    ensures Word(w + t) == w
    decreases |w|
  {
    if |w| > 1 {
      assert (w + t)[1..] == w[1..] + t;
      WordOfElem(w[1..], t);
    } else {
      assert (w + t)[1..] == t;
    }
  }

  lemma SplitElemPrefix(w: string, t: string)
    requires IsElem(w) && (t == [] || t[0] == '/')
    ensures Split(w + t) == [w] + Split(t)
  {
    WordOfElem(w, t);
    assert (w + t)[|w|..] == t;
  }

  lemma {:induction false} JoinHead(es: seq<string>)
    requires AllElems(es) && es != []
    ensures |Join(es)| >= |es[0]| && Join(es)[..|es[0]|] == es[0]
    ensures Join(es)[0] != '/'
  {
    if |es| > 1 {
      assert Join(es) == es[0] + ("/" + Join(es[1..]));
    }
  }

  /** Splitting a joined list of elements gives the list back. */
  lemma {:induction false} SplitJoin(es: seq<string>)
    requires AllElems(es)
    ensures Split(Join(es)) == es
  {
    if |es| == 1 {
      SplitElemPrefix(es[0], "");
      assert es[0] + "" == es[0];
    } else if |es| > 1 {
      var rest := "/" + Join(es[1..]);
      assert Join(es) == es[0] + rest;
      SplitElemPrefix(es[0], rest);
      assert Split(rest) == Split(Join(es[1..]));
      SplitJoin(es[1..]);
    }
  }

  /** The elements a clean rendering splits into are the ones it was rendered from. */
  lemma RenderRoundTrip(rooted: bool, es: seq<string>)
    requires Normal(rooted, es)
    ensures Rooted(Render(rooted, es)) == rooted
    ensures Elements(Render(rooted, es)) == es
  {
    var c := Render(rooted, es);
    if rooted {
      assert c[1..] == Join(es);
      SplitJoin(es);
      ResolveNormalIsIdentity(rooted, [], es);
      assert [] + es == es;
    } else if es == [] {
      assert Word(".") == ".";
      assert Split(".") == ["."];
    } else {
      JoinHead(es);
      SplitJoin(es);
      ResolveNormalIsIdentity(rooted, [], es);
      assert [] + es == es;
    }
  }

  lemma CleanElementsNormal(s: string)
    ensures Normal(Rooted(s), Elements(s))
  {
    ResolveIsNormal(Rooted(s), [], Split(s));
  }

  /** Clean is idempotent: a cleaned path is already clean. */
  lemma CleanIdempotent(s: string)
    ensures Clean(Clean(s)) == Clean(s)
  {
    CleanElementsNormal(s);
    RenderRoundTrip(Rooted(s), Elements(s));
  }

  /** The result of Clean is never empty and is rooted exactly when the input is. */
  lemma CleanShape(s: string)
    ensures Clean(s) != ""
    ensures Rooted(Clean(s)) == Rooted(s)
  {
    CleanElementsNormal(s);
    RenderRoundTrip(Rooted(s), Elements(s));
  }

  /** The only clean path made of slashes alone is "/", and it is the rooted path with no elements. */
  lemma {:induction false} CleanAllSlashesIff(s: string)
    ensures (forall i :: 0 <= i < |Clean(s)| ==> Clean(s)[i] == '/') <==> Clean(s) == "/"
    ensures Clean(s) == "/" <==> Rooted(s) && Elements(s) == []
  {
    var es := Elements(s);
    CleanElementsNormal(s);
    if es != [] {
      JoinHead(es);
      if Rooted(s) {
        assert Clean(s)[1] == Join(es)[0];
      } else {
        assert Clean(s)[0] == Join(es)[0];
      }
    }
  }

  /** Under a root, a path of "." and ".." elements alone resolves to nothing. */
  lemma {:induction false} ResolveDotsRooted(es: seq<string>)
    requires forall i :: 0 <= i < |es| ==> es[i] == "." || es[i] == ".."
    ensures Resolve(true, [], es) == []
    decreases |es|
  {
    if es != [] {
      assert Step(true, [], es[0]) == [];
      ResolveDotsRooted(es[1..]);
    }
  }

  /** Index of the last slash in `s`, or -1 when there is none. */
  function LastSlash(s: string): (i: int)
    ensures -1 <= i < |s|
    ensures i >= 0 ==> s[i] == '/'
    ensures forall j :: i < j < |s| ==> s[j] != '/'
  {
    if s == [] then -1 else if s[|s| - 1] == '/' then |s| - 1 else LastSlash(s[..|s| - 1])
  }

  /**
   * `filepath.Dir` on Unix: everything up to and including the last slash,
   * cleaned; "." when there is no slash.
   */
  function Dir(p: string): string {
    Clean(p[..LastSlash(p) + 1])
  }

  /** What Dir returns is already clean. */
  lemma DirIsClean(p: string)
    ensures Clean(Dir(p)) == Dir(p)
  {
    CleanIdempotent(p[..LastSlash(p) + 1]);
  }
}
