/** The constructor's four input checks, in the order the client runs them.
    The two regular expressions are written as character-level predicates
    (`UrlOk`, `KeyOk`), and each is proved equal to a reference predicate
    that spells out the language its regular expression matches. */
module Validation {
  import opened Wrappers
  import opened Exceptions
  import opened Strings

  // ---------------------------------------------------------------------
  // URL: re.match(r"^(https?)://.+", url)
  // ---------------------------------------------------------------------

  /** A parse of `url` against `(https?)://.+` whose scheme ends at `n`:
      `n == 4` is "http", `n == 5` is "https"; `.+` needs one character
      other than a newline right after "://", and nothing later is looked at. */
  ghost predicate UrlParse(url: string, n: int) {
    && (n == 4 || n == 5)
    && n + 3 < |url|
    && url[..4] == "http"
    && (n == 5 ==> url[4] == 's')
    && url[n..n + 3] == "://"
    && url[n + 3] != '\n'
  }

  /** A parse with n = 5 is an "https://" prefix, one with n = 4 "http://". */
  lemma ParsedScheme(url: string, n: int)
    requires UrlParse(url, n)
    ensures n == 5 ==> StartsWith(url, "https://")
    ensures n == 4 ==> StartsWith(url, "http://")
  {
    if n == 5 {
      forall k | 0 <= k < 8 ensures url[..8][k] == "https://"[k] {
        if k < 4 { assert url[k] == url[..4][k]; }
        else if k > 4 { assert url[k] == url[5..8][k - 5]; }
      }
    } else {
      forall k | 0 <= k < 7 ensures url[..7][k] == "http://"[k] {
        if k < 4 { assert url[k] == url[..4][k]; }
        else { assert url[k] == url[4..7][k - 4]; }
      }
    }
  }

  /** The URL check as a prefix test. */
  function UrlOk(url: string): (ok: bool)
    ensures ok <==> exists n :: UrlParse(url, n)
  {
    var https := StartsWith(url, "https://") && |url| > 8 && url[8] != '\n';
    var http := StartsWith(url, "http://") && |url| > 7 && url[7] != '\n';
    assert https ==> UrlParse(url, 5) by {
      if https { assert url[..4] == url[..8][..4] && url[5..8] == url[..8][5..8]; }
    }
    assert http ==> UrlParse(url, 4) by {
      if http { assert url[..4] == url[..7][..4] && url[4..7] == url[..7][4..7]; }
    }
    assert forall n :: UrlParse(url, n) ==> (n == 5 && https) || (n == 4 && http) by {
      forall n | UrlParse(url, n) ensures (n == 5 && https) || (n == 4 && http) {
        ParsedScheme(url, n);
      }
    }
    https || http
  }

  // ---------------------------------------------------------------------
  // Key: re.match(r"^[A-Za-z0-9-_=]+\.[A-Za-z0-9-_=]+\.?[A-Za-z0-9-_.+/=]*$", key)
  // ---------------------------------------------------------------------

  /** `[A-Za-z0-9-_=]` */
  predicate IsSegmentChar(c: char) {
    ('A' <= c <= 'Z') || ('a' <= c <= 'z') || ('0' <= c <= '9') || c == '-' || c == '_' || c == '='
  }

  /** `[A-Za-z0-9-_.+/=]` */
  predicate IsTailChar(c: char) {
    IsSegmentChar(c) || c == '.' || c == '+' || c == '/'
  }

  predicate AllSegmentChars(s: string) {
    forall i :: 0 <= i < |s| ==> IsSegmentChar(s[i])
  }

  predicate AllTailChars(s: string) {
    forall i :: 0 <= i < |s| ==> IsTailChar(s[i])
  }

  /** A parse of the whole of `key` against the key pattern without its `$`:
      `key[..i]` is the first run, `key[i]` the dot, `key[i+1..j]` the second
      run, `key[j..k]` the optional dot and `key[k..]` the tail. */
  ghost predicate KeyParse(key: string, i: int, j: int, k: int) {
    && 0 < i && i + 1 < j && j <= k <= j + 1 && k <= |key|
    && AllSegmentChars(key[..i])
    && key[i] == '.'
    && AllSegmentChars(key[i + 1..j])
    && (k == j + 1 ==> key[j] == '.')
    && AllTailChars(key[k..])
  }

  ghost predicate KeyPattern(key: string) {
    exists i, j, k :: KeyParse(key, i, j, k)
  }

  /** What `re.match` accepts: Python's `$` also matches just before a
      final newline, so the pattern may match all of the key but that newline. */
  ghost predicate KeyRegexMatches(key: string) {
    KeyPattern(key) || (|key| > 0 && key[|key| - 1] == '\n' && KeyPattern(key[..|key| - 1]))
  }

  /** The key check by position of the first dot: a non-empty run of segment
      characters up to it, a segment character after it, then tail characters. */
  predicate KeyShape(key: string) {
    var i := FirstIndexOf(key, '.');
    && 0 < i && i + 1 < |key|
    && AllSegmentChars(key[..i])
    && IsSegmentChar(key[i + 1])
    && AllTailChars(key[i + 2..])
  }

  function KeyOk(key: string): (ok: bool)
    ensures ok <==> KeyRegexMatches(key)
  {
    KeyShapeIsPattern(key);
    KeyShapeIsPattern(if |key| > 0 then key[..|key| - 1] else key);
    KeyShape(key) || (|key| > 0 && key[|key| - 1] == '\n' && KeyShape(key[..|key| - 1]))
  }

  /** The first-dot test and the pattern accept the same keys: the first run
      cannot hold a dot, and `\.?[...]*` after one segment character is the
      same as `[...]*`, since the tail class holds the dot and every segment
      character. */
  lemma KeyShapeIsPattern(key: string)
    ensures KeyShape(key) <==> KeyPattern(key)
  {
    var d := FirstIndexOf(key, '.');
    if KeyShape(key) {
      assert AllSegmentChars(key[d + 1..d + 2]);
      assert KeyParse(key, d, d + 2, d + 2);
    }
    if KeyPattern(key) {
      var i, j, k :| KeyParse(key, i, j, k);
      assert forall p :: 0 <= p < i ==> key[p] != '.' by {
        forall p | 0 <= p < i ensures key[p] != '.' { assert IsSegmentChar(key[..i][p]); }
      }
      assert d == i;
      assert IsSegmentChar(key[i + 1]) by { assert key[i + 1] == key[i + 1..j][0]; }
      forall q | i + 2 <= q < |key| ensures IsTailChar(key[q]) {
        if q < j {
          assert key[q] == key[i + 1..j][q - i - 1];
        } else if q >= k {
          assert key[q] == key[k..][q - k];
        }
      }
    }
  }

  // ---------------------------------------------------------------------
  // The ordered checks
  // ---------------------------------------------------------------------

  /** The error the constructor raises before doing anything else, or None
      when all four checks pass. */
  function ValidationError(url: string, key: string): (r: Option<Error>)
    ensures r.None? <==> (exists n :: UrlParse(url, n)) && KeyRegexMatches(key)
    ensures r.Some? ==> r.value.SupabaseException?
  {
    if url == [] then Some(SupabaseException(UrlRequired))
    else if key == [] then Some(SupabaseException(KeyRequired))
    else if !UrlOk(url) then Some(SupabaseException(InvalidUrl))
    else if !KeyOk(key) then Some(SupabaseException(InvalidKey))
    else None
  }

  /** The checks run in a fixed order and each has its own message. */
  lemma ValidationOrder(url: string, key: string)
    ensures url == [] ==> ValidationError(url, key) == Some(SupabaseException(UrlRequired))
    ensures url != [] && key == [] ==> ValidationError(url, key) == Some(SupabaseException(KeyRequired))
    ensures url != [] && key != [] && !UrlOk(url) ==>
      ValidationError(url, key) == Some(SupabaseException(InvalidUrl))
    ensures url != [] && key != [] && UrlOk(url) && !KeyOk(key) ==>
      ValidationError(url, key) == Some(SupabaseException(InvalidKey))
  {
  }

  /** Concrete URLs: either scheme, lower case only, and one non-newline
      character after "://". */
  lemma UrlExamples()
    ensures UrlOk("https://abcxyz.supabase.co") && UrlOk("http://x")
    ensures !UrlOk("https://") && !UrlOk("https://\nx") && !UrlOk("ftp://x") && !UrlOk("HTTP://x")
  {
    assert "HTTP://x"[..7] != "http://" by { assert "HTTP://x"[0] == 'H'; }
    assert "https://"[..7] != "http://" by { assert "https://"[4] == 's'; }
    assert "https://\nx"[..7] != "http://" by { assert "https://\nx"[4] == 's'; }
  }

  /** Every key made of a run of segment characters, a dot, one segment
      character and any tail characters is accepted; the second segment may
      be a single character and the rest may hold further dots. */
  lemma KeyOfParts(a: string, c: char, t: string)
    requires |a| > 0 && AllSegmentChars(a) && IsSegmentChar(c) && AllTailChars(t)
    ensures KeyOk(a + "." + [c] + t)
  {
    var key := a + "." + [c] + t;
    assert key[..|a|] == a && key[|a|] == '.' && key[|a| + 1] == c && key[|a| + 2..] == t;
    assert forall j :: 0 <= j < |a| ==> key[j] != '.' by {
      forall j | 0 <= j < |a| ensures key[j] != '.' { assert IsSegmentChar(a[j]); }
    }
    FirstIndexAt(key, '.', |a|);
    assert KeyShape(key);
  }

  /** Two segments suffice: the third is optional. */
  lemma KeyAcceptedTwoSegments()
    ensures KeyOk("a.b")
  {
    KeyOfParts("a", 'b', "");
    assert "a" + "." + ['b'] + "" == "a.b";
  }

  /** The usual three-segment JWT shape. */
  lemma KeyAcceptedThreeSegments()
    ensures KeyOk("a.b.c")
  {
    KeyOfParts("a", 'b', ".c");
    assert "a" + "." + ['b'] + ".c" == "a.b.c";
  }

  /** The tail may hold further dots and the characters `+` and `/`. */
  lemma KeyAcceptedDottedTail()
    ensures KeyOk("x.y..+/=")
  {
    KeyOfParts("x", 'y', "..+/=");
    assert "x" + "." + ['y'] + "..+/=" == "x.y..+/=";
  }

  /** One trailing newline passes, through Python's `$`. */
  lemma KeyAcceptedWithNewline()
    ensures KeyOk("a.b\n")
  {
    assert "a.b\n"[..3] == "a.b";
    assert KeyShape("a.b");
  }

  /** Concrete keys without two non-empty leading segments are refused. */
  lemma KeyRejected()
    ensures !KeyOk("abc") && !KeyOk(".b.c") && !KeyOk("a..c")
  {
  }

  /** A character outside the tail alphabet is refused. */
  lemma KeyRejectedSpace()
    ensures !KeyOk("a.b c")
  {
    assert !AllTailChars("a.b c"[3..]) by { assert "a.b c"[3..][0] == ' '; }
  }

  /** Python's `$` forgives one final newline, not two. */
  lemma KeyRejectedTwoNewlines()
    ensures !KeyOk("a.b\n\n")
  {
    assert !AllTailChars("a.b\n\n"[3..]) by { assert "a.b\n\n"[3..][0] == '\n'; }
    assert "a.b\n\n"[..4] == "a.b\n";
    assert !AllTailChars("a.b\n"[3..]) by { assert "a.b\n"[3..][0] == '\n'; }
  }
}
