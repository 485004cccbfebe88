/**
 * The TRIM filter (src/builtin/filter/trim.rs): a string input loses its
 * leading and trailing whitespace; any other input is an error.
 *
 * Whitespace is what Rust's `str::trim` removes: the characters with the
 * Unicode White_Space property.
 */
module TrimFilter {
  import opened Errors
  import opened Json
  import opened EngineContext

  /** Rust's `char::is_whitespace`: the Unicode White_Space property. */
  predicate IsWhitespace(c: char)
  {
    var n := c as int;
    (0x09 <= n <= 0x0D) || n == 0x20 || n == 0x85 || n == 0xA0 || n == 0x1680 ||
    (0x2000 <= n <= 0x200A) || n == 0x2028 || n == 0x2029 || n == 0x202F ||
    n == 0x205F || n == 0x3000
  }

  predicate AllWhitespace(s: string)
  {
    forall k :: 0 <= k < |s| ==> IsWhitespace(s[k])
  }

  /** Neither the first nor the last character is whitespace. */
  predicate NoBoundaryWhitespace(s: string)
  {
    s == [] || (!IsWhitespace(s[0]) && !IsWhitespace(s[|s| - 1]))
  }

  /** `r` is `s` with only whitespace removed, and only at its two ends. */
  predicate IsTrimmingOf(s: string, r: string)
  {
    exists i, j :: 0 <= i <= j <= |s| && s[i..j] == r && AllWhitespace(s[..i]) && AllWhitespace(s[j..])
  }

  /** The length of the whitespace prefix of `s`. */
  function LeadingWhitespace(s: string): (n: nat)
    ensures n <= |s|
    ensures AllWhitespace(s[..n])
    ensures n < |s| ==> !IsWhitespace(s[n])
    decreases |s|
  {
    if s == [] || !IsWhitespace(s[0]) then 0
    else
      var n := 1 + LeadingWhitespace(s[1..]);
      assert s[..n] == [s[0]] + s[1..][..n - 1];
      n
  }

  /** The length of the whitespace suffix of `s`. */
  function TrailingWhitespace(s: string): (n: nat)
    ensures n <= |s|
    ensures AllWhitespace(s[|s| - n..])
    ensures n < |s| ==> !IsWhitespace(s[|s| - 1 - n])
    decreases |s|
  {
    if s == [] || !IsWhitespace(s[|s| - 1]) then 0
    else
      var front := s[..|s| - 1];
      var m := TrailingWhitespace(front);
      assert forall k :: |front| - m <= k < |front| ==> IsWhitespace(front[k]) by {
        assert forall k :: |front| - m <= k < |front| ==> front[k] == front[|front| - m..][k - (|front| - m)];
      }
      assert forall k :: |s| - 1 - m <= k < |s| ==> IsWhitespace(s[k]);
      assert m < |front| ==> s[|s| - 2 - m] == front[|front| - 1 - m];
      m + 1
  }

  /** `str::trim` */
  function TrimStr(s: string): (r: string)
    ensures NoBoundaryWhitespace(r)
    ensures IsTrimmingOf(s, r)
  {
    var i := LeadingWhitespace(s);
    var rest := s[i..];
    var j := i + |rest| - TrailingWhitespace(rest);
    assert s[i..j] == rest[..|rest| - TrailingWhitespace(rest)];
    assert s[j..] == rest[|rest| - TrailingWhitespace(rest)..];
    s[i..j]
  }

  /** The `trim` filter; its named arguments and the context are not used. */
  function Trim(input: Value, args: map<string, Value>, context: Context): (r: Result<Value>)
    ensures r.Ok? <==> input.String?
    ensures r.Err? ==> r.error == FilterExpectsString("trim")
    ensures r.Ok? ==> r.value.String? && NoBoundaryWhitespace(r.value.s) && IsTrimmingOf(input.s, r.value.s)
  {
    match AsStr(input)
    case None => Err(FilterExpectsString("trim"))
    case Some(s) => Ok(String(TrimStr(s)))
  }
}

/** What TRIM promises, proved about module TrimFilter. */
module TrimProperties {
  import opened Json
  import opened EngineContext
  import opened TrimFilter

  /**
   * Removing whitespace only at the ends, until neither end is whitespace,
   * has exactly one outcome, and `TrimStr` computes it.
   */
  lemma TrimUnique(s: string, i: nat, j: nat)
    requires i <= j <= |s|
    requires AllWhitespace(s[..i]) && AllWhitespace(s[j..])
    requires NoBoundaryWhitespace(s[i..j])
    ensures TrimStr(s) == s[i..j]
  {
    var lead := LeadingWhitespace(s);
    assert forall k :: 0 <= k < i ==> IsWhitespace(s[k]);
    assert forall k :: 0 <= k < lead ==> IsWhitespace(s[k]);
    assert forall k :: j <= k < |s| ==> IsWhitespace(s[k]);
    if i < j {
      assert !IsWhitespace(s[i]) && !IsWhitespace(s[j - 1]);
      assert lead == i;
      var rest := s[i..];
      var trail := TrailingWhitespace(rest);
      assert forall k :: i + |rest| - trail <= k < |s| ==> IsWhitespace(s[k]);
      assert trail == |s| - j;
    } else {
      assert lead == |s|;
    }
  }

  /** A string with no whitespace at either end is returned unchanged. */
  lemma TrimKeepsTrimmed(s: string)
    requires NoBoundaryWhitespace(s)
    ensures TrimStr(s) == s
  {
    assert s[..0] == [] && s[|s|..] == [] && s[0..|s|] == s;
    TrimUnique(s, 0, |s|);
  }

  /** Trimming twice is trimming once. */
  lemma TrimIdempotent(s: string)
    ensures TrimStr(TrimStr(s)) == TrimStr(s)
  {
    TrimKeepsTrimmed(TrimStr(s));
  }

  /** The result depends on the input alone. */
  lemma TrimIgnoresArguments(input: Value, args1: map<string, Value>, args2: map<string, Value>,
                             c1: Context, c2: Context)
    ensures Trim(input, args1, c1) == Trim(input, args2, c2)
  {
  }

  /** "    a    " trims to "a" (the source's own example). */
  lemma TrimExample()
    ensures TrimStr("    a    ") == "a"
  {
    var s := "    a    ";
    assert s[..4] == "    " && s[4..5] == "a" && s[5..] == "    ";
    TrimUnique(s, 4, 5);
  }
}
