/**
 * `patchLineStyleOpacity` of the applet script: splice a new `opacity="…"` value into the
 * `<lineStyle …/>` element of an object's XML. The XML is read from and written back to the
 * host; here it is the input and the result.
 */
module LineStyle {
  import opened Strings

  const TagMarker: string := "<lineStyle "
  const ValueMarker: string := "opacity=\""
  const Quote: string := "\""

  /** `value` as the script renders it into the attribute. */
  function Attribute(value: nat): string
  {
    ValueMarker + NatToString(value) + Quote
  }

  /**
   * The string handed to `evalXML`, computed as written: the three searches may each come back
   * with -1, which `substring` then clamps.
   */
  function PatchedAsWritten(xml: string, value: nat): string
  {
    var tagMarkerBegin := IndexOf(xml, TagMarker, 0);
    var valueMarkerBegin := IndexOf(xml, ValueMarker, tagMarkerBegin + |TagMarker|);
    var valueEnd := IndexOf(xml, Quote, valueMarkerBegin + |ValueMarker|);
    Substring(xml, 0, valueMarkerBegin) + Attribute(value) + SubstringFrom(xml, valueEnd + 1)
  }

  /**
   * The patch as evidently intended: the same splice when the element, its opacity attribute
   * and the closing quote are all found, and the XML unchanged otherwise.
   */
  function Patched(xml: string, value: nat): string
  {
    var tagMarkerBegin := IndexOf(xml, TagMarker, 0);
    var valueMarkerBegin := IndexOf(xml, ValueMarker, tagMarkerBegin + |TagMarker|);
    var valueEnd := IndexOf(xml, Quote, valueMarkerBegin + |ValueMarker|);
    if tagMarkerBegin == -1 || valueMarkerBegin == -1 || valueEnd == -1 then xml
    else Substring(xml, 0, valueMarkerBegin) + Attribute(value) + SubstringFrom(xml, valueEnd + 1)
  }

  /** The first match of `needle` from `from` on is the one `IndexOf` finds. */
  lemma FirstMatch(s: string, needle: string, from: int, k: int)
    requires |needle| > 0 && from <= k && MatchAt(s, needle, k)
    requires forall j :: from <= j < k ==> !MatchAt(s, needle, j)
    ensures IndexOf(s, needle, from) == k
  {
  }

  /** Nothing is found from `from` on, so `IndexOf` answers -1. */
  lemma NoMatch(s: string, needle: string, from: int)
    requires |needle| > 0
    requires forall j :: from <= j ==> !MatchAt(s, needle, j)
    ensures IndexOf(s, needle, from) == -1
  {
  }

  /** Matches of a needle lying inside a common prefix are the same in both strings. */
  lemma MatchInPrefix(s: string, t: string, n: nat, needle: string, k: int)
    requires n <= |s| && n <= |t| && s[..n] == t[..n]
    requires 0 <= k && k + |needle| <= n
    ensures MatchAt(s, needle, k) <==> MatchAt(t, needle, k)
  {
    assert s[k..k + |needle|] == s[..n][k..k + |needle|];
    assert t[k..k + |needle|] == t[..n][k..k + |needle|];
  }

  /** `opacity="` never starts part-way into a following `opacity="`: no window straddles the join. */
  lemma NoStraddle(pre: string, rest: string, k: int)
    requires |pre| - |ValueMarker| < k < |pre|
    ensures !MatchAt(pre + ValueMarker + rest, ValueMarker, k)
  {
    if 0 <= k {
      var s := pre + ValueMarker + rest;
      var j := |pre| - k;
      assert s[|pre|] == ValueMarker[0];
      assert ValueMarker[j] != ValueMarker[0];
      assert s[k..k + |ValueMarker|][j] == s[|pre|];
    }
  }

  /** The element starts at `t` in `pre`, and `pre` holds no opacity attribute after it. */
  predicate Element(pre: string, t: nat)
  {
    && MatchAt(pre, TagMarker, t)
    && (forall k :: 0 <= k < t ==> !MatchAt(pre, TagMarker, k))
    && (forall k :: t + |TagMarker| <= k < |pre| ==> !MatchAt(pre, ValueMarker, k))
  }

  /** The element's tag is found where `pre` has it. */
  lemma TagSearch(pre: string, rest: string, t: nat)
    requires Element(pre, t)
    ensures IndexOf(pre + rest, TagMarker, 0) == t
  {
    var xml := pre + rest;
    assert xml[..|pre|] == pre[..|pre|];
    forall k | 0 <= k < t
      ensures !MatchAt(xml, TagMarker, k)
    {
      MatchInPrefix(xml, pre, |pre|, TagMarker, k);
    }
    MatchInPrefix(xml, pre, |pre|, TagMarker, t);
    FirstMatch(xml, TagMarker, 0, t);
  }

  /** The first opacity attribute after the tag is the one right after `pre`. */
  lemma ValueSearch(pre: string, rest: string, t: nat)
    requires Element(pre, t)
    ensures IndexOf(pre + ValueMarker + rest, ValueMarker, t + |TagMarker|) == |pre|
  {
    var xml := pre + ValueMarker + rest;
    assert xml[..|pre|] == pre[..|pre|];
    forall k | t + |TagMarker| <= k < |pre|
      ensures !MatchAt(xml, ValueMarker, k)
    {
      if k + |ValueMarker| <= |pre| {
        MatchInPrefix(xml, pre, |pre|, ValueMarker, k);
      } else {
        NoStraddle(pre, rest, k);
      }
    }
    assert xml[|pre|..|pre| + |ValueMarker|] == ValueMarker;
    FirstMatch(xml, ValueMarker, t + |TagMarker|, |pre|);
  }

  /** The first quote after the start `v` of a quote-free value is the one closing it. */
  lemma QuoteSearch(head: string, current: string, post: string)
    requires '"' !in current
    ensures IndexOf(head + current + Quote + post, Quote, |head|) == |head| + |current|
  {
    var xml := head + current + Quote + post;
    var v := |head|;
    forall k | v <= k < v + |current|
      ensures !MatchAt(xml, Quote, k)
    {
      assert xml[k] == current[k - v];
      assert xml[k..k + 1] == [xml[k]];
    }
    assert xml[v + |current|] == '"';
    assert xml[v + |current|..v + |current| + 1] == Quote;
    FirstMatch(xml, Quote, v, v + |current|);
  }

  /**
   * How the three searches fall on `pre + opacity="old" + post`: the attribute starts right
   * after `pre` and its value ends right before `post`.
   */
  lemma SearchesOn(pre: string, current: string, post: string, t: nat)
    requires Element(pre, t) && '"' !in current
    ensures var xml := pre + ValueMarker + current + Quote + post;
            && IndexOf(xml, TagMarker, 0) == t
            && IndexOf(xml, ValueMarker, t + |TagMarker|) == |pre|
            && IndexOf(xml, Quote, |pre| + |ValueMarker|) == |pre| + |ValueMarker| + |current|
  {
    var xml := pre + ValueMarker + current + Quote + post;
    assert xml == pre + (ValueMarker + current + Quote + post);
    TagSearch(pre, ValueMarker + current + Quote + post, t);
    assert xml == pre + ValueMarker + (current + Quote + post);
    ValueSearch(pre, current + Quote + post, t);
    QuoteSearch(pre + ValueMarker, current, post);
  }

  /**
   * On `xml == pre + opacity="current" + post` the patch replaces exactly the current opacity
   * value and keeps everything before and after it; the as-written code does the same there.
   */
  lemma PatchReplacesValue(xml: string, pre: string, current: string, post: string, t: nat, value: nat)
    requires xml == pre + ValueMarker + current + Quote + post
    requires Element(pre, t) && '"' !in current
    ensures Patched(xml, value) == pre + Attribute(value) + post
    ensures PatchedAsWritten(xml, value) == pre + Attribute(value) + post
  {
    SearchesOn(pre, current, post, t);
    var e := |pre| + |ValueMarker| + |current|;
    assert xml[..|pre|] == pre;
    assert xml[e + 1..] == post;
  }

  /** The digits of a number hold no quote. */
  lemma DigitsQuoteFree(value: nat)
    ensures '"' !in NatToString(value)
  {
  }

  /** On such XML, patching twice with the same value is patching once. */
  lemma PatchIdempotent(xml: string, pre: string, current: string, post: string, t: nat, value: nat)
    requires xml == pre + ValueMarker + current + Quote + post
    requires Element(pre, t) && '"' !in current
    ensures Patched(Patched(xml, value), value) == Patched(xml, value)
  {
    PatchReplacesValue(xml, pre, current, post, t, value);
    PatchedAgain(pre, post, t, value);
  }

  /** Patching the result of a patch with the same value changes nothing. */
  lemma PatchedAgain(pre: string, post: string, t: nat, value: nat)
    requires Element(pre, t)
    ensures Patched(pre + Attribute(value) + post, value) == pre + Attribute(value) + post
  {
    var digits := NatToString(value);
    DigitsQuoteFree(value);
    assert pre + Attribute(value) + post == pre + ValueMarker + digits + Quote + post;
    PatchReplacesValue(pre + Attribute(value) + post, pre, digits, post, t, value);
  }

  /** Without an opacity attribute the intended patch leaves the XML alone. */
  lemma PatchWithoutAttribute(xml: string, value: nat)
    requires forall k :: !MatchAt(xml, ValueMarker, k)
    ensures Patched(xml, value) == xml
  {
    NoMatch(xml, ValueMarker, IndexOf(xml, TagMarker, 0) + |TagMarker|);
  }

  /** A `<lineStyle …/>` element without an opacity attribute. */
  const UnpatchableElement: string := "<lineStyle x=\"1\"/>"

  /** Its tag is at the start, no opacity attribute follows, and its first quote after 8 is at 13. */
  lemma UnpatchableSearches()
    ensures IndexOf(UnpatchableElement, TagMarker, 0) == 0
    ensures IndexOf(UnpatchableElement, ValueMarker, |TagMarker|) == -1
    ensures IndexOf(UnpatchableElement, Quote, |ValueMarker| - 1) == 13
  {
    var xml := UnpatchableElement;
    assert MatchAt(xml, TagMarker, 0);
    FirstMatch(xml, TagMarker, 0, 0);
    NoMatch(xml, ValueMarker, 11);
    forall j | 8 <= j < 13
      ensures !MatchAt(xml, Quote, j)
    {
      assert xml[j..j + 1] == [xml[j]];
    }
    assert xml[13..14] == Quote;
    FirstMatch(xml, Quote, 8, 13);
  }

  /**
   * As written, an element without an opacity attribute loses everything up to its first
   * quote: `<lineStyle x="1"/>` becomes `opacity="255"1"/>`.
   */
  lemma AsWrittenDropsPrefix()
    ensures PatchedAsWritten(UnpatchableElement, 255) == "opacity=\"255\"1\"/>"
  {
    UnpatchableSearches();
    var xml := UnpatchableElement;
    assert Substring(xml, 0, -1) == "";
    assert SubstringFrom(xml, 14) == "1\"/>";
    OpacityAttribute255();
  }

  lemma OpacityAttribute255()
    ensures Attribute(255) == "opacity=\"255\""
  {
    Digits255();
  }

  lemma Digits255()
    ensures NatToString(255) == "255"
  {
    assert NatToString(2) == "2";
    assert NatToString(25) == "25";
  }
}
