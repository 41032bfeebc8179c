/**
 * The client-identification header of business requests: the runtime's agent
 * string, an optional `platform/version` tag and the transport library's
 * versions, with double spaces squeezed by one left-to-right replacement pass.
 */
module UserAgent {
  import opened Wrappers

  const HEADER_PREFIX: string := "User-Agent: "

  /** PHP's `empty()` on a nullable string: null, "" and "0" are all empty. */
  predicate PhpEmpty(v: Option<string>) {
    v.None? || v.value == "" || v.value == "0"
  }

  /** ` platform/version`, present only when neither part is empty. */
  function PlatformSuffix(platform: Option<string>, platformVersion: Option<string>): (suffix: string)
    ensures suffix != "" <==> !PhpEmpty(platform) && !PhpEmpty(platformVersion)
    ensures suffix != "" ==> suffix == " " + platform.value + "/" + platformVersion.value
  {
    if !PhpEmpty(platform) && !PhpEmpty(platformVersion) then " " + platform.value + "/" + platformVersion.value else ""
  }

  /** The transport library's version report, when it gives one; a missing entry prints as "". */
  datatype CurlVersion = CurlVersion(version: Option<string>, sslVersion: Option<string>)

  function CurlSuffix(curl: Option<CurlVersion>): (suffix: string)
    ensures suffix == "" <==> curl.None?
    ensures curl.Some? ==> |suffix| >= 7 && suffix[..6] == " curl/"
  {
    match curl
    case None => ""
    case Some(v) => " curl/" + v.version.GetOr("") + " " + v.sslVersion.GetOr("")
  }

  /**
   * The header before squeezing. `agent` is the runtime-formatted agent string
   * (language version, filiation, operating system), an input here.
   */
  function UserAgentHeader(agent: string, platform: Option<string>, platformVersion: Option<string>, curl: Option<CurlVersion>): (h: string)
    ensures |h| >= |HEADER_PREFIX + agent| && h[..|HEADER_PREFIX + agent|] == HEADER_PREFIX + agent
    ensures PhpEmpty(platform) || PhpEmpty(platformVersion) ==> h == HEADER_PREFIX + agent + CurlSuffix(curl)
    ensures !PhpEmpty(platform) && !PhpEmpty(platformVersion) ==>
              h == HEADER_PREFIX + agent + (" " + platform.value + "/" + platformVersion.value) + CurlSuffix(curl)
  {
    var named := HEADER_PREFIX + agent;
    var tail := PlatformSuffix(platform, platformVersion) + CurlSuffix(curl);
    assert named + PlatformSuffix(platform, platformVersion) + CurlSuffix(curl) == named + tail;
    assert (named + tail)[..|named|] == named;
    named + PlatformSuffix(platform, platformVersion) + CurlSuffix(curl)
  }

  /** One pass replacing each non-overlapping "  " by " ", scanning from the left. */
  function SqueezeSpaces(s: string): (r: string)
    ensures |r| <= |s|
    decreases |s|
  {
    if |s| < 2 then s
    else if s[0] == ' ' && s[1] == ' ' then " " + SqueezeSpaces(s[2..])
    else [s[0]] + SqueezeSpaces(s[1..])
  }

  predicate DoubleSpaceAt(s: string, i: int)
    requires 0 <= i < |s| - 1
  {
    s[i] == ' ' && s[i + 1] == ' '
  }

  predicate HasDoubleSpace(s: string) {
    exists i :: 0 <= i < |s| - 1 && DoubleSpaceAt(s, i)
  }

  /** The characters of `s` other than spaces, in order. */
  function NonSpaces(s: string): string
    decreases |s|
  {
    if s == [] then [] else (if s[0] == ' ' then [] else [s[0]]) + NonSpaces(s[1..])
  }

  lemma {:induction false} SqueezeShrinks(s: string)
    requires HasDoubleSpace(s)
    ensures |SqueezeSpaces(s)| < |s|
    decreases |s|
  {
    var i :| 0 <= i < |s| - 1 && DoubleSpaceAt(s, i);
    if !(s[0] == ' ' && s[1] == ' ') {
      assert DoubleSpaceAt(s[1..], i - 1);
      SqueezeShrinks(s[1..]);
    }
  }

  /** The pass changes the header exactly when it contains a double space. */
  lemma {:induction false} SqueezeChangesIffDoubleSpace(s: string)
    ensures SqueezeSpaces(s) == s <==> !HasDoubleSpace(s)
    decreases |s|
  {
    if HasDoubleSpace(s) {
      SqueezeShrinks(s);
    } else if |s| >= 2 {
      assert !HasDoubleSpace(s[1..]) by {
        forall i | 0 <= i < |s[1..]| - 1
          ensures !DoubleSpaceAt(s[1..], i)
        {
          assert !DoubleSpaceAt(s, i + 1);
        }
      }
      SqueezeChangesIffDoubleSpace(s[1..]);
      assert !DoubleSpaceAt(s, 0);
      assert [s[0]] + s[1..] == s;
    }
  }

  /** Squeezing removes spaces only: every other character survives, in order. */
  lemma {:induction false} SqueezeKeepsNonSpaces(s: string)
    ensures NonSpaces(SqueezeSpaces(s)) == NonSpaces(s)
    decreases |s|
  {
    if |s| < 2 {
    } else if s[0] == ' ' && s[1] == ' ' {
      SqueezeKeepsNonSpaces(s[2..]);
      var t := SqueezeSpaces(s[2..]);
      assert (" " + t)[1..] == t;
      assert s[1..][1..] == s[2..];
    } else {
      SqueezeKeepsNonSpaces(s[1..]);
      var t := SqueezeSpaces(s[1..]);
      assert ([s[0]] + t)[1..] == t;
    }
  }

  /** Dropping the first character cannot create a double space. */
  lemma TailHasNoDoubleSpace(p: string)
    requires p != [] && !HasDoubleSpace(p)
    ensures !HasDoubleSpace(p[1..])
  {
    var q := p[1..];
    forall i | 0 <= i < |q| - 1
      ensures !DoubleSpaceAt(q, i)
    {
      assert !DoubleSpaceAt(p, i + 1);
    }
  }

  /** A character that does not open a double space is copied as is. */
  lemma SqueezeCons(c: char, t: string)
    requires !(c == ' ' && t != [] && t[0] == ' ')
    ensures SqueezeSpaces([c] + t) == [c] + SqueezeSpaces(t)
  {
    assert ([c] + t)[1..] == t;
  }

  /** A prefix without double spaces that does not end in a space passes through unchanged. */
  lemma {:induction false} SqueezeKeepsPrefix(p: string, s: string)
    requires !HasDoubleSpace(p) && (p == [] || p[|p| - 1] != ' ')
    ensures SqueezeSpaces(p + s) == p + SqueezeSpaces(s)
    decreases |p|
  {
    if p == [] {
      assert p + s == s && p + SqueezeSpaces(s) == SqueezeSpaces(s);
    } else {
      var q := p[1..];
      TailHasNoDoubleSpace(p);
      SqueezeKeepsPrefix(q, s);
      assert p + s == [p[0]] + (q + s);
      if |q| > 0 {
        assert !DoubleSpaceAt(p, 0);
        assert (q + s)[0] == p[1];
      } else {
        assert p[0] != ' ';
      }
      SqueezeCons(p[0], q + s);
      assert [p[0]] + (q + SqueezeSpaces(s)) == p + SqueezeSpaces(s);
    }
  }

  predicate HasTripleSpace(s: string) {
    exists i :: 0 <= i < |s| - 2 && DoubleSpaceAt(s, i) && s[i + 2] == ' '
  }

  /** A double space in `c` followed by `t` is either `c` and the head of `t`, or one inside `t`. */
  lemma DoubleSpaceCons(c: char, t: string)
    ensures HasDoubleSpace([c] + t) <==> (c == ' ' && t != [] && t[0] == ' ') || HasDoubleSpace(t)
  {
    var u := [c] + t;
    if HasDoubleSpace(u) {
      var i :| 0 <= i < |u| - 1 && DoubleSpaceAt(u, i);
      if i > 0 {
        assert DoubleSpaceAt(t, i - 1);
      }
    }
    if c == ' ' && t != [] && t[0] == ' ' {
      assert DoubleSpaceAt(u, 0);
    } else if HasDoubleSpace(t) {
      var j :| 0 <= j < |t| - 1 && DoubleSpaceAt(t, j);
      assert DoubleSpaceAt(u, j + 1);
    }
  }

  /** Three spaces in `s` either open it or lie in its tail. */
  lemma TripleSpaceStep(s: string)
    requires s != []
    ensures HasTripleSpace(s) <==> (|s| >= 3 && s[0] == ' ' && s[1] == ' ' && s[2] == ' ') || HasTripleSpace(s[1..])
  {
    var t := s[1..];
    if HasTripleSpace(s) {
      var i :| 0 <= i < |s| - 2 && DoubleSpaceAt(s, i) && s[i + 2] == ' ';
      if i > 0 {
        assert DoubleSpaceAt(t, i - 1) && t[i + 1] == ' ';
      }
    }
    if |s| >= 3 && s[0] == ' ' && s[1] == ' ' && s[2] == ' ' {
      assert DoubleSpaceAt(s, 0);
    } else if HasTripleSpace(t) {
      var j :| 0 <= j < |t| - 2 && DoubleSpaceAt(t, j) && t[j + 2] == ' ';
      assert DoubleSpaceAt(s, j + 1) && s[j + 3] == ' ';
    }
  }

  /** Squeezing keeps whether the text is empty and whether it opens with a space. */
  lemma SqueezeHead(t: string)
    ensures SqueezeSpaces(t) == [] <==> t == []
    ensures t != [] ==> (SqueezeSpaces(t)[0] == ' ' <==> t[0] == ' ')
  {
  }

  /**
   * One pass, not a collapse of every run: a double space survives exactly
   * where the input had three spaces in a row.
   */
  lemma {:induction false} SqueezeLeavesDoubleIffTriple(s: string)
    ensures HasDoubleSpace(SqueezeSpaces(s)) <==> HasTripleSpace(s)
    decreases |s|
  {
    if |s| < 2 {
    } else if s[0] == ' ' && s[1] == ' ' {
      var t := s[2..];
      SqueezeLeavesDoubleIffTriple(t);
      SqueezeHead(t);
      DoubleSpaceCons(' ', SqueezeSpaces(t));
      assert " " + SqueezeSpaces(t) == [' '] + SqueezeSpaces(t);
      TripleSpaceStep(s);
      TripleSpaceStep(s[1..]);
      assert s[1..][1..] == t;
    } else {
      var t := s[1..];
      SqueezeLeavesDoubleIffTriple(t);
      SqueezeHead(t);
      DoubleSpaceCons(s[0], SqueezeSpaces(t));
      TripleSpaceStep(s);
    }
  }

  /** One pass only: three spaces become two, not one. */
  lemma SinglePassExample()
    ensures SqueezeSpaces("a   b") == "a  b"
  {
    assert "a   b"[1..] == "   b";
    assert "   b"[2..] == " b";
    assert " b"[1..] == "b";
  }
}
