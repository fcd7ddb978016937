/** The five service URLs a client derives from its base URL. */
module Endpoints {
  import opened Wrappers
  import opened Exceptions
  import opened Strings

  datatype Endpoints = Endpoints(rest: string, realtime: string, auth: string, storage: string, functions: string)

  function RestUrl(url: string): (r: string)
    ensures StartsWith(r, url)
  {
    url + "/rest/v1"
  }

  function AuthUrl(url: string): (r: string)
    ensures StartsWith(r, url)
  {
    url + "/auth/v1"
  }

  function StorageUrl(url: string): (r: string)
    ensures StartsWith(r, url)
  {
    url + "/storage/v1"
  }

  /** Every "http" in the whole string is replaced, not only the scheme's. */
  function RealtimeUrl(url: string): (r: string)
    ensures |r| <= |url| + |"/realtime/v1"|
  {
    ReplaceAll(url + "/realtime/v1", "http", "ws")
  }

  /** `re.search(r"(supabase\.co)|(supabase\.in)", url)`: a substring test
      anywhere in the URL. */
  function IsPlatform(url: string): (p: bool)
    ensures p <==> exists i :: OccursAt(url, "supabase.co", i) || OccursAt(url, "supabase.in", i)
  {
    Contains(url, "supabase.co") || Contains(url, "supabase.in")
  }

  /** On the hosted platform the first three dot-separated parts are rebuilt
      around a "functions" label (indexing a shorter split raises IndexError);
      elsewhere a fixed suffix is added. */
  function FunctionsUrl(url: string): (r: Result<string, Error>)
    ensures r.Failure? ==> r.error == IndexError && IsPlatform(url)
    ensures !IsPlatform(url) ==> r.Success? && StartsWith(r.value, url)
  {
    if IsPlatform(url) then
      var parts := Split(url, '.');
      if |parts| < 3 then Failure(IndexError)
      else Success(parts[0] + ".functions." + parts[1] + "." + parts[2])
    else
      Success(url + "/functions/v1")
  }

  function DeriveEndpoints(url: string): (r: Result<Endpoints, Error>)
    ensures r.Failure? <==> FunctionsUrl(url).Failure?
    ensures r.Success? ==> Success(r.value.functions) == FunctionsUrl(url)
  {
    match FunctionsUrl(url)
    case Failure(e) => Failure(e)
    case Success(f) => Success(Endpoints(RestUrl(url), RealtimeUrl(url), AuthUrl(url), StorageUrl(url), f))
  }

  // ---------------------------------------------------------------------
  // Fixed-suffix URLs
  // ---------------------------------------------------------------------

  /** The REST, auth and storage URLs keep the base URL as a prefix, are
      pairwise distinct, and each determines the base URL. */
  lemma SuffixUrls(url: string, other: string)
    ensures StartsWith(RestUrl(url), url) && StartsWith(AuthUrl(url), url) && StartsWith(StorageUrl(url), url)
    ensures RestUrl(url) != AuthUrl(url) && AuthUrl(url) != StorageUrl(url) && RestUrl(url) != StorageUrl(url)
    ensures RestUrl(url) == RestUrl(other) ==> url == other
    ensures AuthUrl(url) == AuthUrl(other) ==> url == other
    ensures StorageUrl(url) == StorageUrl(other) ==> url == other
  {
    var n := |url|;
    assert RestUrl(url)[..n] == url && AuthUrl(url)[..n] == url && StorageUrl(url)[..n] == url;
    assert RestUrl(url)[n + 1] == 'r' && AuthUrl(url)[n + 1] == 'a' && StorageUrl(url)[n + 1] == 's';
    if RestUrl(url) == RestUrl(other) { assert url == RestUrl(url)[..n] == RestUrl(other)[..|other|]; }
    if AuthUrl(url) == AuthUrl(other) { assert url == AuthUrl(url)[..n] == AuthUrl(other)[..|other|]; }
    if StorageUrl(url) == StorageUrl(other) { assert url == StorageUrl(url)[..n] == StorageUrl(other)[..|other|]; }
  }

  // ---------------------------------------------------------------------
  // The realtime URL: "http" replaced by "ws" everywhere
  // ---------------------------------------------------------------------

  /** A character other than 'h' passes through the replacement unchanged. */
  lemma ReplaceCons(c: char, t: string)
    requires c != 'h'
    ensures ReplaceAll([c] + t, "http", "ws") == [c] + ReplaceAll(t, "http", "ws")
  {
    assert ([c] + t)[1..] == t;
    if |[c] + t| >= 4 { assert ([c] + t)[..4][0] == c; }
  }

  /** A prefix without an 'h' passes through the replacement unchanged. */
  lemma {:induction false} ReplaceKeepsPlainPrefix(p: string, t: string)
    requires 'h' !in p
    ensures ReplaceAll(p + t, "http", "ws") == p + ReplaceAll(t, "http", "ws")
    decreases |p|
  {
    if p != [] {
      var c, q, rt := p[0], p[1..], ReplaceAll(t, "http", "ws");
      assert p == [c] + q;
      assert 'h' !in q by { forall x | x in q ensures x != 'h' { assert x in p; } }
      assert c != 'h' by { assert c in p; }
      ReplaceKeepsPlainPrefix(q, t);
      ReplaceCons(c, q + t);
      assert p + t == [c] + (q + t);
      assert [c] + (q + rt) == p + rt;
    } else {
      assert p + t == t;
    }
  }

  /** A leading "http" becomes "ws". */
  lemma ReplaceHead(t: string)
    ensures ReplaceAll("http" + t, "http", "ws") == "ws" + ReplaceAll(t, "http", "ws")
  {
    assert ("http" + t)[..4] == "http" && ("http" + t)[4..] == t;
  }

  /** Shifting an occurrence by one character. */
  lemma OccursShift(s: string, pat: string, i: int)
    requires |s| > 0 && i >= 0
    ensures OccursAt(s[1..], pat, i) <==> OccursAt(s, pat, i + 1)
  {
    if i + |pat| <= |s| - 1 {
      assert s[1..][i..i + |pat|] == s[i + 1..i + 1 + |pat|];
    }
  }

  /** An occurrence past the end of `a` is an occurrence in `b`. */
  lemma OccursInSuffix(a: string, b: string, pat: string, i: int)
    ensures i >= |a| && OccursAt(a + b, pat, i) ==> OccursAt(b, pat, i - |a|)
  {
    if i >= |a| && OccursAt(a + b, pat, i) {
      assert (a + b)[i..i + |pat|] == b[i - |a|..i - |a| + |pat|];
    }
  }

  /** A string lacking one of the pattern's characters does not contain it. */
  lemma MissingChar(s: string, pat: string, k: int)
    requires 0 <= k < |pat| && pat[k] !in s
    ensures !Contains(s, pat)
  {
    forall i ensures !OccursAt(s, pat, i) {
      if 0 <= i && i + |pat| <= |s| {
        assert s[i + k] == s[i..i + |pat|][k];
      }
    }
  }

  /** A string without "http" is left as it is. */
  lemma {:induction false} ReplaceNoMatch(s: string)
    requires !Contains(s, "http")
    ensures ReplaceAll(s, "http", "ws") == s
    decreases |s|
  {
    if |s| >= 4 {
      assert !OccursAt(s, "http", 0);
      forall i ensures !OccursAt(s[1..], "http", i) {
        if i >= 0 { OccursShift(s, "http", i); }
      }
      ReplaceNoMatch(s[1..]);
      assert [s[0]] + s[1..] == s;
    }
  }

  /** The replacement never produces a 'w'-free prefix out of nothing: a
      result that starts with one came from a source that starts with it. */
  lemma {:induction false} ReplaceKeepsPrefix(t: string, q: string)
    requires 'w' !in q
    ensures StartsWith(ReplaceAll(t, "http", "ws"), q) ==> StartsWith(t, q)
    decreases |q|
  {
    var r := ReplaceAll(t, "http", "ws");
    if q != [] && |t| >= 4 {
      if t[..4] == "http" {
        assert r[0] == 'w' && q[0] != 'w';
      } else {
        var r' := ReplaceAll(t[1..], "http", "ws");
        assert r == [t[0]] + r';
        assert 'w' !in q[1..];
        ReplaceKeepsPrefix(t[1..], q[1..]);
        if StartsWith(r, q) {
          assert r'[..|q| - 1] == r[1..|q|] == q[1..];
          assert t[..|q|] == [t[0]] + t[1..][..|q| - 1];
        }
      }
    }
  }

  /** An occurrence starts with the pattern's first character. */
  lemma OccursFirst(s: string, pat: string, i: int)
    requires |pat| > 0
    ensures OccursAt(s, pat, i) ==> s[i] == pat[0]
  {
    if OccursAt(s, pat, i) { assert s[i] == s[i..i + |pat|][0]; }
  }

  /** An occurrence at the very start of `[c] + t` puts the rest of the
      pattern at the start of `t`. */
  lemma OccursAtHead(c: char, t: string, pat: string)
    requires |pat| > 0
    ensures OccursAt([c] + t, pat, 0) ==> StartsWith(t, pat[1..])
  {
    if OccursAt([c] + t, pat, 0) { assert t[..|pat| - 1] == ([c] + t)[..|pat|][1..]; }
  }

  /** No "http" is left after the replacement. */
  lemma {:induction false} ReplaceLeavesNoHttp(s: string)
    ensures !Contains(ReplaceAll(s, "http", "ws"), "http")
    decreases |s|
  {
    var r := ReplaceAll(s, "http", "ws");
    if |s| < 4 {
      assert |r| < 4;
    } else if s[..4] == "http" {
      var r' := ReplaceAll(s[4..], "http", "ws");
      ReplaceLeavesNoHttp(s[4..]);
      assert r == "ws" + r' && r[0] == 'w' && r[1] == 's';
      forall i ensures !OccursAt(r, "http", i) {
        OccursFirst(r, "http", i);
        OccursInSuffix("ws", r', "http", i);
      }
    } else {
      var r' := ReplaceAll(s[1..], "http", "ws");
      ReplaceLeavesNoHttp(s[1..]);
      assert r == [s[0]] + r';
      ReplaceKeepsPrefix(s[1..], "ttp");
      assert s[..4] == [s[0]] + s[1..][..3];
      OccursFirst(r, "http", 0);
      OccursAtHead(s[0], r', "http");
      assert !OccursAt(r, "http", 0);
      forall i ensures !OccursAt(r, "http", i) {
        OccursInSuffix([s[0]], r', "http", i);
      }
    }
  }

  /** The scheme "https://" becomes "wss://". */
  lemma ReplaceHttpsScheme(t: string)
    ensures ReplaceAll("https://" + t, "http", "ws") == "wss://" + ReplaceAll(t, "http", "ws")
  {
    var rt := ReplaceAll(t, "http", "ws");
    calc {
      ReplaceAll("https://" + t, "http", "ws");
      { assert "https://" + t == "http" + ("s://" + t); }
      ReplaceAll("http" + ("s://" + t), "http", "ws");
      { ReplaceHead("s://" + t); }
      "ws" + ReplaceAll("s://" + t, "http", "ws");
      { ReplaceKeepsPlainPrefix("s://", t); }
      "ws" + ("s://" + rt);
      { assert "ws" + ("s://" + rt) == "wss://" + rt; }
      "wss://" + rt;
    }
  }

  /** The scheme "http://" becomes "ws://". */
  lemma ReplaceHttpScheme(t: string)
    ensures ReplaceAll("http://" + t, "http", "ws") == "ws://" + ReplaceAll(t, "http", "ws")
  {
    var rt := ReplaceAll(t, "http", "ws");
    calc {
      ReplaceAll("http://" + t, "http", "ws");
      { assert "http://" + t == "http" + ("://" + t); }
      ReplaceAll("http" + ("://" + t), "http", "ws");
      { ReplaceHead("://" + t); }
      "ws" + ReplaceAll("://" + t, "http", "ws");
      { ReplaceKeepsPlainPrefix("://", t); }
      "ws" + ("://" + rt);
      { assert "ws" + ("://" + rt) == "ws://" + rt; }
      "ws://" + rt;
    }
  }

  /** An occurrence that ends inside `a` is an occurrence in `a`. */
  lemma OccursInPrefix(a: string, b: string, pat: string, i: int)
    ensures i + |pat| <= |a| && OccursAt(a + b, pat, i) ==> OccursAt(a, pat, i)
  {
    if 0 <= i && i + |pat| <= |a| {
      assert (a + b)[i..i + |pat|] == a[i..i + |pat|];
    }
  }

  /** An occurrence that starts in `a` and ends in `b` puts a character of
      the pattern other than its first at `b[0]`. */
  lemma OccursAcross(a: string, b: string, pat: string, i: int)
    ensures i < |a| < i + |pat| && OccursAt(a + b, pat, i) ==> 0 < |a| - i < |pat| && b[0] == pat[|a| - i]
  {
    if i < |a| < i + |pat| && OccursAt(a + b, pat, i) {
      assert (a + b)[i..i + |pat|][|a| - i] == (a + b)[|a|];
    }
  }

  /** Appending a string without 'h' that starts with neither 't' nor 'p'
      cannot create an "http". */
  lemma AppendAddsNoHttp(a: string, b: string)
    requires !Contains(a, "http")
    requires 'h' !in b && (|b| > 0 ==> b[0] != 't' && b[0] != 'p')
    ensures !Contains(a + b, "http")
  {
    MissingChar(b, "http", 0);
    assert forall k :: 0 < k < 4 ==> "http"[k] == 't' || "http"[k] == 'p';
    forall i ensures !OccursAt(a + b, "http", i) {
      OccursInSuffix(a, b, "http", i);
      OccursInPrefix(a, b, "http", i);
      OccursAcross(a, b, "http", i);
    }
  }

  /** The realtime URL of a base URL "<scheme>://<rest>": the scheme turns into
      ws/wss and the rest has every "http" rewritten. */
  lemma RealtimeUrlShape(rest: string)
    ensures RealtimeUrl("https://" + rest) == "wss://" + ReplaceAll(rest + "/realtime/v1", "http", "ws")
    ensures RealtimeUrl("http://" + rest) == "ws://" + ReplaceAll(rest + "/realtime/v1", "http", "ws")
  {
    var s := rest + "/realtime/v1";
    assert "https://" + rest + "/realtime/v1" == "https://" + s;
    ReplaceHttpsScheme(s);
    assert "http://" + rest + "/realtime/v1" == "http://" + s;
    ReplaceHttpScheme(s);
  }

  /** When the rest of the base URL holds no "http", only the scheme changes. */
  lemma RealtimeUrlPlainRest(rest: string)
    ensures !Contains(rest, "http") ==> RealtimeUrl("https://" + rest) == "wss://" + rest + "/realtime/v1"
    ensures !Contains(rest, "http") ==> RealtimeUrl("http://" + rest) == "ws://" + rest + "/realtime/v1"
  {
    if !Contains(rest, "http") {
      var s := rest + "/realtime/v1";
      RealtimeUrlShape(rest);
      AppendAddsNoHttp(rest, "/realtime/v1");
      ReplaceNoMatch(s);
      assert "wss://" + s == "wss://" + rest + "/realtime/v1";
      assert "ws://" + s == "ws://" + rest + "/realtime/v1";
    }
  }

  /** Whatever the base URL, no "http" survives in the realtime URL. */
  lemma RealtimeUrlHasNoHttp(url: string)
    ensures !Contains(RealtimeUrl(url), "http")
  {
    ReplaceLeavesNoHttp(url + "/realtime/v1");
  }

  /** The realtime scheme follows the base scheme: https gives wss and http
      gives ws. */
  lemma RealtimeUrlScheme(url: string)
    ensures StartsWith(url, "https://") ==> StartsWith(RealtimeUrl(url), "wss://")
    ensures StartsWith(url, "http://") ==> StartsWith(RealtimeUrl(url), "ws://")
  {
    if StartsWith(url, "https://") {
      assert url == "https://" + url[8..];
      RealtimeUrlShape(url[8..]);
    }
    if StartsWith(url, "http://") {
      assert url == "http://" + url[7..];
      RealtimeUrlShape(url[7..]);
    }
  }

  /** An "http" after the scheme is rewritten too: with `a` free of 'h', the
      base "https://" + a + "http" + b gives "wss://" + a + "ws" + …. */
  lemma RealtimeUrlRewritesHost(a: string, b: string)
    requires 'h' !in a
    ensures RealtimeUrl("https://" + a + "http" + b) == "wss://" + a + "ws" + ReplaceAll(b + "/realtime/v1", "http", "ws")
  {
    var tail := b + "/realtime/v1";
    var rt := ReplaceAll(tail, "http", "ws");
    calc {
      RealtimeUrl("https://" + a + "http" + b);
      { assert "https://" + a + "http" + b + "/realtime/v1" == "https://" + (a + ("http" + tail)); }
      ReplaceAll("https://" + (a + ("http" + tail)), "http", "ws");
      { ReplaceHttpsScheme(a + ("http" + tail)); }
      "wss://" + ReplaceAll(a + ("http" + tail), "http", "ws");
      { ReplaceKeepsPlainPrefix(a, "http" + tail); }
      "wss://" + (a + ReplaceAll("http" + tail, "http", "ws"));
      { ReplaceHead(tail); }
      "wss://" + (a + ("ws" + rt));
      { assert "wss://" + (a + ("ws" + rt)) == "wss://" + a + "ws" + rt; }
      "wss://" + a + "ws" + rt;
    }
  }

  // ---------------------------------------------------------------------
  // The functions URL
  // ---------------------------------------------------------------------

  /** A dot-free `c` followed by nothing or by a dot is the first part. */
  lemma SplitFirstPart(c: string, tail: string)
    requires '.' !in c
    requires tail == [] || tail[0] == '.'
    ensures Split(c + tail, '.')[0] == c
  {
    if tail == [] {
      SplitNoSep(c, '.');
      assert c + tail == c;
    } else {
      var t := tail[1..];
      assert c + tail == c + ['.'] + t;
      SplitAtSep(c, '.', t);
    }
  }

  /** The first three parts of `a.b.c` followed by nothing or by a dot. */
  lemma SplitThreeParts(a: string, b: string, c: string, tail: string)
    requires '.' !in a && '.' !in b && '.' !in c
    requires tail == [] || tail[0] == '.'
    ensures var parts := Split(a + "." + b + "." + c + tail, '.');
      |parts| >= 3 && parts[0] == a && parts[1] == b && parts[2] == c
  {
    var y := c + tail;
    var x := b + "." + y;
    assert a + "." + b + "." + c + tail == a + "." + x;
    SplitFirstPart(c, tail);
    SplitAtSep(b, '.', y);
    SplitAtSep(a, '.', x);
    var py := Split(y, '.');
    assert Split(a + "." + x, '.') == [a] + ([b] + py);
    assert ([a] + ([b] + py))[2] == py[0];
  }

  /** On the platform, with the base URL written as `a.b.c` followed by
      nothing or by further ".…" parts, the functions URL is
      `a.functions.b.c`: the scheme stays in `a` and later parts are dropped. */
  lemma FunctionsUrlOnPlatform(a: string, b: string, c: string, tail: string)
    requires '.' !in a && '.' !in b && '.' !in c
    requires tail == [] || tail[0] == '.'
    requires IsPlatform(a + "." + b + "." + c + tail)
    ensures FunctionsUrl(a + "." + b + "." + c + tail) == Success(a + ".functions." + b + "." + c)
  {
    SplitThreeParts(a, b, c, tail);
  }

  /** The platform rule fails exactly when the URL has fewer than two dots. */
  lemma FunctionsUrlFails(url: string)
    ensures FunctionsUrl(url).Failure? <==> IsPlatform(url) && multiset(url)['.'] < 2
    ensures FunctionsUrl(url).Failure? ==> FunctionsUrl(url).error == IndexError
  {
    SplitCount(url, '.');
  }

  /** Off the platform the functions URL is the base plus "/functions/v1". */
  lemma FunctionsUrlOffPlatform(url: string)
    requires !IsPlatform(url)
    ensures FunctionsUrl(url) == Success(url + "/functions/v1")
    ensures FunctionsUrl(url).value[..|url|] == url
  {
  }

  /** A hosted project's base URL `<scheme>://<ref>.supabase.co`: the
      functions URL puts the label between the project and the domain, and
      the scheme stays in the first part. */
  lemma FunctionsUrlOfProject(base: string)
    requires '.' !in base
    ensures FunctionsUrl(base + ".supabase.co") == Success(base + ".functions.supabase.co")
  {
    var url := base + ".supabase.co";
    assert url == base + "." + "supabase" + "." + "co" + "";
    assert url[|base| + 1..|base| + 12] == "supabase.co";
    assert OccursAt(url, "supabase.co", |base| + 1);
    FunctionsUrlOnPlatform(base, "supabase", "co", "");
    assert base + ".functions." + "supabase" + "." + "co" == base + ".functions.supabase.co";
  }

  /** Neither platform domain occurs in "https://example.com". */
  lemma ExampleHostOffPlatform(url: string)
    requires url == "https://example.com"
    ensures !IsPlatform(url)
  {
    MissingChar(url, "supabase.co", 1);
    MissingChar(url, "supabase.in", 1);
  }

  /** A host off the platform gets the fixed suffix. */
  lemma FunctionsUrlOfCustomHost(url: string)
    requires url == "https://example.com"
    ensures FunctionsUrl(url) == Success("https://example.com/functions/v1")
  {
    ExampleHostOffPlatform(url);
    assert url + "/functions/v1" == "https://example.com/functions/v1";
  }

  /** A platform URL with a single dot has too few parts to index. */
  lemma FunctionsUrlTooShort()
    ensures FunctionsUrl("https://supabase.co") == Failure(IndexError)
  {
    var url := "https://supabase.co";
    assert OccursAt(url, "supabase.co", 8);
    assert url == "https://supabase" + ['.'] + "co";
    SplitAtSep("https://supabase", '.', "co");
    SplitNoSep("co", '.');
  }
}
