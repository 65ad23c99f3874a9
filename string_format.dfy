/**
 * The part of .NET composite formatting (`String.Format(format, arg)`) that the
 * builders rely on: every occurrence of the format item `{0}` is replaced by the
 * argument, every other character is copied. Only format strings without any
 * other brace are given to it in this model.
 */
module StringFormat {

  /** The format item that stands for the first argument. */
  const Placeholder: string := "{0}"

  /** No character of `s` is a brace, so none opens or closes a format item. */
  predicate NoBraces(s: string)
  {
    forall i :: 0 <= i < |s| ==> s[i] != '{' && s[i] != '}'
  }

  /** `String.Format(format, arg)` */
  function Format(format: string, arg: string): string
    decreases |format|
  {
    if format == [] then []
    else if |format| >= 3 && format[0] == '{' && format[1] == '0' && format[2] == '}' then arg + Format(format[3..], arg)
    else [format[0]] + Format(format[1..], arg)
  }

  /** A format string with no format item is copied unchanged: the argument is ignored. */
  lemma {:induction false} FormatWithoutItems(format: string, arg: string)
    requires NoBraces(format)
    ensures Format(format, arg) == format
  {
    if format != [] {
      assert |format| >= 3 ==> format[..3][0] != Placeholder[0];
      FormatWithoutItems(format[1..], arg);
    }
  }

  /** A brace-free prefix passes through formatting unchanged. */
  lemma {:induction false} FormatLiteralPrefix(prefix: string, rest: string, arg: string)
    requires NoBraces(prefix)
    ensures Format(prefix + rest, arg) == prefix + Format(rest, arg)
  {
    if prefix != [] {
      var s := prefix + rest;
      assert s[0] == prefix[0] && s[0] != '{';
      assert |s| >= 3 ==> s[..3][0] != Placeholder[0];
      assert s[1..] == prefix[1..] + rest;
      FormatLiteralPrefix(prefix[1..], rest, arg);
      assert Format(s, arg) == [s[0]] + Format(s[1..], arg);
      assert prefix == [prefix[0]] + prefix[1..];
    } else {
      assert prefix + rest == rest;
    }
  }

  /** `String.Format(prefix + "{0}", arg)` is `prefix + arg` when the prefix has no brace. */
  lemma FormatPrefixThenItem(prefix: string, arg: string)
    requires NoBraces(prefix)
    ensures Format(prefix + Placeholder, arg) == prefix + arg
  {
    FormatLiteralPrefix(prefix, Placeholder, arg);
    assert Format(Placeholder, arg) == arg + Format([], arg);
  }

  /** Concatenation with a common prefix is injective in the suffix. */
  lemma PrefixCancels(prefix: string, a: string, b: string)
    requires prefix + a == prefix + b
    ensures a == b
  {
    assert a == (prefix + a)[|prefix|..];
    assert b == (prefix + b)[|prefix|..];
  }
}
