/**
 * The `classNames` helper: the truthy arguments, converted to strings and
 * joined by single spaces, as a value for an element's class attribute.
 */
module Styling {
  import opened Sequences
  import opened Strings

  /**
   * An argument of `classNames`: a class name, a boolean (what `cond && "name"`
   * gives when `cond` is false), or null/undefined.
   */
  datatype ClassArg = Str(s: string) | Bool(b: bool) | Null | Undefined

  /** JavaScript truthiness, as `filter(Boolean)` tests it. */
  predicate Truthy(a: ClassArg)
  {
    match a
    case Str(s) => s != []
    case Bool(b) => b
    case Null => false
    case Undefined => false
  }

  /** How `join` writes an element: null and undefined as the empty string. */
  function Text(a: ClassArg): string
  {
    match a
    case Str(s) => s
    case Bool(b) => if b then "true" else "false"
    case Null => ""
    case Undefined => ""
  }

  function Texts(xs: seq<ClassArg>): seq<string>
  {
    seq(|xs|, i requires 0 <= i < |xs| => Text(xs[i]))
  }

  /** `classNames(...xs)`: `xs.filter(Boolean).join(" ")`. */
  function ClassNames(xs: seq<ClassArg>): string
  {
    Join(Texts(Keep(xs, Truthy)), " ")
  }

  predicate NonEmpty(w: string)
  {
    w != []
  }

  /** The class names a space-separated class attribute lists: its space-free runs, empty ones dropped. */
  function Tokens(s: string): seq<string>
  {
    Keep(Split(s, ' '), NonEmpty)
  }

  /** A truthy argument is never written as the empty string. */
  lemma TruthyTextNonEmpty(a: ClassArg)
    requires Truthy(a)
    ensures Text(a) != []
  {
  }

  /**
   * When no argument holds a space, the attribute lists exactly the truthy
   * arguments, in the order they were passed, and nothing else.
   */
  lemma ClassNamesTokens(xs: seq<ClassArg>)
    requires forall i :: 0 <= i < |xs| ==> ' ' !in Text(xs[i])
    ensures Tokens(ClassNames(xs)) == Texts(Keep(xs, Truthy))
  {
    var kept := Keep(xs, Truthy);
    var texts := Texts(kept);
    if kept == [] {
      assert ClassNames(xs) == [];
      assert Split([], ' ') == [[]];
      KeepStep(Split([], ' '), NonEmpty);
    } else {
      forall k | 0 <= k < |texts|
        ensures ' ' !in texts[k] && NonEmpty(texts[k])
      {
        assert kept[k] in xs;
        TruthyTextNonEmpty(kept[k]);
      }
      SplitJoin(texts, ' ');
      KeepAll(texts, NonEmpty);
    }
  }

  /** `classNames` gives the empty string exactly when no argument is truthy. */
  lemma ClassNamesEmpty(xs: seq<ClassArg>)
    ensures ClassNames(xs) == [] <==> forall i :: 0 <= i < |xs| ==> !Truthy(xs[i])
  {
    var kept := Keep(xs, Truthy);
    if kept != [] {
      TruthyTextNonEmpty(kept[0]);
      assert Texts(kept)[0] == Text(kept[0]);
      var i :| 0 <= i < |xs| && xs[i] == kept[0];
    } else {
      forall i | 0 <= i < |xs|
        ensures !Truthy(xs[i])
      {
        assert xs[i] !in kept;
      }
    }
  }
}
