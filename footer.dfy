/**
 * The site footer: four links, each keyed and labelled by its text, whose
 * target is `/` and the lower-cased item with its first space replaced by
 * `-` (a string pattern in `replace` replaces only the first match).
 */
module Footer {

  const Labels: seq<string> := ["About", "Privacy Policy", "Licensing", "Contact Us"]

  /** Lower-casing of one character (ASCII letters only). */
  function LowerChar(c: char): char {
    if 'A' <= c <= 'Z' then (c as int - 'A' as int + 'a' as int) as char else c
  }

  /** `s.toLowerCase()`: every character lower-cased in place, so spaces stay exactly where they were. */
  function ToLower(s: string): (r: string)
    ensures |r| == |s|
    ensures forall i :: 0 <= i < |s| ==> (r[i] == ' ' <==> s[i] == ' ')
  {
    seq(|s|, i requires 0 <= i < |s| => LowerChar(s[i]))
  }

  /** `s.indexOf(c)`: the index of the first `c`, or -1. */
  function IndexOf(s: string, c: char): (r: int)
    ensures -1 <= r < |s|
  {
    if |s| == 0 then -1
    else if s[0] == c then 0
    else
      var k := IndexOf(s[1..], c);
      if k < 0 then -1 else k + 1
  }

  /** -1 exactly when `c` is absent; otherwise an index holding `c` with no `c` before it. */
  lemma {:induction false} IndexOfFirst(s: string, c: char)
    ensures IndexOf(s, c) == -1 <==> c !in s
    ensures IndexOf(s, c) >= 0 ==> s[IndexOf(s, c)] == c && c !in s[..IndexOf(s, c)]
  {
    if |s| > 0 && s[0] != c {
      IndexOfFirst(s[1..], c);
      assert s == [s[0]] + s[1..];
      var k := IndexOf(s[1..], c);
      if k >= 0 {
        assert s[..k + 1] == [s[0]] + s[1..][..k];
      }
    }
  }

  /** `s.replace(from, to)` with a one-character string pattern: the first match is spliced out. */
  function ReplaceFirst(s: string, from: char, to: char): (r: string)
    ensures |r| == |s|
    ensures from in s ==> to in r
  {
    IndexOfFirst(s, from);
    var i := IndexOf(s, from);
    if i < 0 then s
    else
      var r := s[..i] + [to] + s[i + 1..];
      assert r[i] == to;
      r
  }

  /** Only the first occurrence of `from` becomes `to`; every other character stays. */
  lemma {:induction false} ReplaceFirstAt(s: string, from: char, to: char, i: nat)
    requires i < |s|
    ensures |ReplaceFirst(s, from, to)| == |s|
    ensures ReplaceFirst(s, from, to)[i] == if s[i] == from && from !in s[..i] then to else s[i]
  {
    IndexOfFirst(s, from);
    var k := IndexOf(s, from);
    if k >= 0 && i > k {
      assert s[..i][k] == from;
    }
  }

  /** The link target built from an item. */
  function Href(item: string): (r: string)
    ensures |r| == |item| + 1 && r[0] == '/'
  {
    "/" + ReplaceFirst(ToLower(item), ' ', '-')
  }

  datatype Link = Link(key: string, href: string, text: string)

  /** The rendered links, in item order. */
  function Links(): (r: seq<Link>)
    ensures |r| == |Labels|
    ensures forall i, j :: 0 <= i < j < |r| ==> r[i].key != r[j].key
  {
    seq(|Labels|, i requires 0 <= i < |Labels| => Link(Labels[i], Href(Labels[i]), Labels[i]))
  }

  /** Character `k` of an item becomes character `k + 1` of its href: `-` for the first space, else lower-cased. */
  lemma {:induction false} HrefAt(item: string, k: nat)
    requires k < |item|
    ensures |Href(item)| == |item| + 1 && Href(item)[0] == '/'
    ensures Href(item)[k + 1] == if item[k] == ' ' && ' ' !in item[..k] then '-' else LowerChar(item[k])
  {
    var low := ToLower(item);
    assert Href(item)[k + 1] == ReplaceFirst(low, ' ', '-')[k];
    ReplaceFirstAt(low, ' ', '-', k);
    assert low[k] == ' ' <==> item[k] == ' ';
    assert (' ' in low[..k]) <==> (' ' in item[..k]) by {
      if ' ' in low[..k] {
        var m :| 0 <= m < k && low[..k][m] == ' ';
        assert item[..k][m] == item[m] == ' ';
      }
      if ' ' in item[..k] {
        var m :| 0 <= m < k && item[..k][m] == ' ';
        assert low[..k][m] == low[m] == ' ';
      }
    }
  }

  /** Lower-casing works character by character, so it distributes over concatenation. */
  lemma {:induction false} ToLowerConcat(a: string, b: string)
    ensures ToLower(a + b) == ToLower(a) + ToLower(b)
  {
    var l, r := ToLower(a + b), ToLower(a) + ToLower(b);
    forall k | 0 <= k < |l| ensures l[k] == r[k] {
      if k < |a| { assert (a + b)[k] == a[k]; } else { assert (a + b)[k] == b[k - |a|]; }
    }
  }

  /** Lower-casing neither creates nor removes a space. */
  lemma {:induction false} ToLowerSpaces(s: string)
    ensures ' ' in ToLower(s) <==> ' ' in s
  {
    var l := ToLower(s);
    if ' ' in l {
      var k :| 0 <= k < |l| && l[k] == ' ';
      assert s[k] == ' ';
    }
    if ' ' in s {
      var k :| 0 <= k < |s| && s[k] == ' ';
      assert l[k] == ' ';
    }
  }

  /** Without a match, replacing leaves the string as it is. */
  lemma {:induction false} ReplaceFirstNoMatch(s: string, from: char, to: char)
    requires from !in s
    ensures ReplaceFirst(s, from, to) == s
  {
    IndexOfFirst(s, from);
  }

  /** The first match is the one after a match-free prefix, and only it is replaced. */
  lemma {:induction false} ReplaceFirstSplit(a: string, from: char, to: char, b: string)
    requires from !in a
    ensures ReplaceFirst(a + [from] + b, from, to) == a + [to] + b
  {
    var s := a + [from] + b;
    IndexOfFirst(s, from);
    var i := IndexOf(s, from);
    assert s[|a|] == from;
    if i != |a| {
      assert false;
    }
    assert s[..i] == a && s[i + 1..] == b;
  }

  /** A one-word item links to its lower-cased self. */
  lemma {:induction false} HrefOneWord(w: string)
    requires ' ' !in w
    ensures Href(w) == "/" + ToLower(w)
  {
    ToLowerSpaces(w);
    ReplaceFirstNoMatch(ToLower(w), ' ', '-');
  }

  /** An item `w1 w2` whose first word has no space links to `/w1-w2`, lower-cased; spaces in `w2` stay. */
  lemma {:induction false} HrefFirstSpace(w1: string, w2: string)
    requires ' ' !in w1
    ensures Href(w1 + " " + w2) == "/" + ToLower(w1) + "-" + ToLower(w2)
  {
    ToLowerConcat(w1 + " ", w2);
    ToLowerConcat(w1, " ");
    assert ToLower(" ") == " ";
    ToLowerSpaces(w1);
    ReplaceFirstSplit(ToLower(w1), ' ', '-', ToLower(w2));
  }

  /** A one-word item whose lower-cased form is known links to that form. */
  lemma {:induction false} HrefOfWord(item: string, lower: string, href: string)
    requires ' ' !in item && ToLower(item) == lower && href == "/" + lower
    ensures Href(item) == href
  {
    HrefOneWord(item);
  }

  /** A two-part item whose lower-cased parts are known links to them joined by `-`. */
  lemma {:induction false} HrefOfWords(item: string, w1: string, w2: string, l1: string, l2: string, href: string)
    requires item == w1 + " " + w2 && ' ' !in w1
    requires ToLower(w1) == l1 && ToLower(w2) == l2 && href == "/" + l1 + "-" + l2
    ensures Href(item) == href
  {
    HrefFirstSpace(w1, w2);
  }

  lemma AboutWord()
    ensures ' ' !in "About" && ToLower("About") == "about" && "/about" == "/" + "about"
  {
  }

  /** `/about`: no space to replace. */
  lemma {:induction false} AboutHref()
    ensures Href("About") == "/about"
  {
    AboutWord();
    HrefOfWord("About", "about", "/about");
  }

  lemma PrivacyPolicyWords()
    ensures "Privacy Policy" == "Privacy" + " " + "Policy" && ' ' !in "Privacy"
    ensures ToLower("Privacy") == "privacy" && ToLower("Policy") == "policy"
    ensures "/privacy-policy" == "/" + "privacy" + "-" + "policy"
  {
  }

  /** `/privacy-policy`. */
  lemma {:induction false} PrivacyPolicyHref()
    ensures Href("Privacy Policy") == "/privacy-policy"
  {
    PrivacyPolicyWords();
    HrefOfWords("Privacy Policy", "Privacy", "Policy", "privacy", "policy", "/privacy-policy");
  }

  lemma LicensingWord()
    ensures ' ' !in "Licensing" && ToLower("Licensing") == "licensing" && "/licensing" == "/" + "licensing"
  {
  }

  /** `/licensing`: no space to replace. */
  lemma {:induction false} LicensingHref()
    ensures Href("Licensing") == "/licensing"
  {
    LicensingWord();
    HrefOfWord("Licensing", "licensing", "/licensing");
  }

  lemma ContactUsWords()
    ensures "Contact Us" == "Contact" + " " + "Us" && ' ' !in "Contact"
    ensures ToLower("Contact") == "contact" && ToLower("Us") == "us"
    ensures "/contact-us" == "/" + "contact" + "-" + "us"
  {
  }

  /** `/contact-us`. */
  lemma {:induction false} ContactUsHref()
    ensures Href("Contact Us") == "/contact-us"
  {
    ContactUsWords();
    HrefOfWords("Contact Us", "Contact", "Us", "contact", "us", "/contact-us");
  }

  lemma {:induction false} LinkAt0()
    ensures |Links()| == 4 && Links()[0] == Link("About", "/about", "About")
  {
    AboutHref();
  }

  lemma {:induction false} LinkAt1()
    ensures |Links()| == 4 && Links()[1] == Link("Privacy Policy", "/privacy-policy", "Privacy Policy")
  {
    PrivacyPolicyHref();
  }

  lemma {:induction false} LinkAt2()
    ensures |Links()| == 4 && Links()[2] == Link("Licensing", "/licensing", "Licensing")
  {
    LicensingHref();
  }

  lemma {:induction false} LinkAt3()
    ensures |Links()| == 4 && Links()[3] == Link("Contact Us", "/contact-us", "Contact Us")
  {
    ContactUsHref();
  }

  /** The footer renders exactly these four links, in this order. */
  lemma {:induction false} FooterLinks()
    ensures Links() == [
      Link("About", "/about", "About"),
      Link("Privacy Policy", "/privacy-policy", "Privacy Policy"),
      Link("Licensing", "/licensing", "Licensing"),
      Link("Contact Us", "/contact-us", "Contact Us")]
  {
    LinkAt0();
    LinkAt1();
    LinkAt2();
    LinkAt3();
  }

  /**
   * Only the first space of an item becomes `-`: in an item with spaces at
   * `i < j`, the first of them at `i`, the href has `-` for the first and
   * keeps the second as a space.
   */
  lemma {:induction false} OnlyFirstSpaceReplaced(item: string, i: nat, j: nat)
    requires i < j < |item| && item[i] == ' ' && item[j] == ' '
    requires ' ' !in item[..i]
    ensures Href(item)[i + 1] == '-'
    ensures Href(item)[j + 1] == ' '
  {
    HrefAt(item, i);
    HrefAt(item, j);
    assert item[..j][i] == ' ';
  }

  lemma TermsOfUseWords()
    ensures "Terms Of Use" == "Terms" + " " + "Of Use" && ' ' !in "Terms"
    ensures ToLower("Terms") == "terms" && ToLower("Of Use") == "of use"
    ensures "/terms-of use" == "/" + "terms" + "-" + "of use"
  {
  }

  /** An item with two spaces keeps the second. */
  lemma {:induction false} TwoSpaceExample()
    ensures Href("Terms Of Use") == "/terms-of use"
  {
    TermsOfUseWords();
    HrefOfWords("Terms Of Use", "Terms", "Of Use", "terms", "of use", "/terms-of use");
  }
}
