/** The link sanitiser of the web client (frontend/src/components/ExternalLink.tsx):
    `fixURL` repairs the links the generator writes (stray slashes before
    the scheme, a network-path reference "//host" in the sense of section
    4.2 of RFC 3986, a host without a scheme) and the component renders
    nothing when no link is left. The scheme test is the case-insensitive
    "http://" or "https://" prefix (scheme names are case-insensitive,
    section 3.1 of RFC 3986). */
module ExternalLink {
  import opened Common

  /** `/^https?:\/\//i`: the text starts with "http://" or "https://" in
      any mix of ASCII case. */
  predicate HasHttpScheme(s: string) {
    FoldedPrefix(s, Http) || FoldedPrefix(s, Https)
  }

  const Http: string := "http://"
  const Https: string := "https://"

  /** ASCII case folding of one character. */
  function Fold(c: char): char {
    if 'A' <= c <= 'Z' then (c as int + 32) as char else c
  }

  /** `s` starts with the lower-case `p` once folded. */
  predicate FoldedPrefix(s: string, p: string) {
    |p| <= |s| && forall i :: 0 <= i < |p| ==> Fold(s[i]) == p[i]
  }

  /** A text with a scheme starts with 'h' or 'H', so neither with a slash
      nor with whitespace. */
  lemma SchemeStart(s: string)
    requires HasHttpScheme(s)
    ensures s != [] && (s[0] == 'h' || s[0] == 'H')
    ensures s[0] != '/' && !IsSpace(s[0])
  {
    assert Fold(s[0]) == 'h';
  }

  /** The number of leading '/' characters. */
  function LeadingSlashes(s: string): (k: nat)
    ensures k <= |s| && (forall i :: 0 <= i < k ==> s[i] == '/')
    ensures k < |s| ==> s[k] != '/'
  {
    if s != [] && s[0] == '/' then 1 + LeadingSlashes(s[1..]) else 0
  }

  /** `replace(/^\/+(https?:\/\/)/i, '$1')`: one or more leading slashes
      directly before a scheme are dropped. The slashes must all be taken,
      since the scheme cannot start with '/'. */
  function DropSlashesBeforeScheme(s: string): (r: string)
    ensures r == s || (HasHttpScheme(r) && |r| < |s| && r == s[|s| - |r|..])
  {
    var k := LeadingSlashes(s);
    if k > 0 && HasHttpScheme(s[k..]) then s[k..] else s
  }

  /** `if (cleaned.startsWith('//')) cleaned = 'https:' + cleaned`. */
  function ResolveNetworkPath(s: string): string {
    if StartsWith(s, "//") then "https:" + s else s
  }

  /** Adds "https://" to a scheme-less text that contains a dot. */
  function AddMissingScheme(s: string): string {
    if !HasHttpScheme(s) && '.' in s then Https + s else s
  }

  /** `fixURL`: null, undefined and "" give ""; otherwise the trimmed text
      through the three repairs, in order. */
  function FixUrl(url: Option<string>): (r: string)
    ensures url.None? || url.value == "" ==> r == ""
  {
    if url.None? || url.value == "" then "" else Repair(Trim(url.value))
  }

  /** The three repairs of a trimmed text, in order. */
  function Repair(t: string): string {
    AddMissingScheme(ResolveNetworkPath(DropSlashesBeforeScheme(t)))
  }

  /** A text that starts with a scheme needs no repair. */
  lemma RepairKeepsScheme(t: string)
    requires HasHttpScheme(t)
    ensures Repair(t) == t
  {
    SchemeStart(t);
    assert LeadingSlashes(t) == 0;
    assert DropSlashesBeforeScheme(t) == t;
    assert !StartsWith(t, "//");
  }

  /** The anchor `ExternalLink` renders: the repaired link, opened in a new
      tab, labelled with its children or "Open Resource". */
  datatype Anchor = Anchor(href: string, newTab: bool, caption: string)

  const DefaultLabel: string := "Open Resource"

  function Render(url: Option<string>, children: Option<string>): (a: Option<Anchor>)
    ensures a.None? <==> FixUrl(url) == ""
    ensures a.Some? ==> a.value.href == FixUrl(url) && a.value.newTab
  {
    var fixed := FixUrl(url);
    if fixed == "" then None
    else Some(Anchor(fixed, true, if Given(children) then children.value else DefaultLabel))
  }

  // ---------------------------------------------------------------------
  // Properties
  // ---------------------------------------------------------------------

  lemma HttpsHasScheme(s: string)
    ensures HasHttpScheme(Https + s)
  {
    assert forall i :: 0 <= i < |Https| ==> (Https + s)[i] == Https[i];
  }

  /** Whitespace alone gives "", so nothing is rendered. */
  lemma BlankGivesNothing(s: string)
    requires AllSpace(s)
    ensures FixUrl(Some(s)) == ""
    ensures Render(Some(s), None).None?
  {
    TrimStartAllSpace(s);
    assert Trim(s) == [];
  }

  /** A link that already has an http(s) scheme is only trimmed. */
  lemma SchemeKept(s: string)
    requires HasHttpScheme(Trim(s))
    ensures FixUrl(Some(s)) == Trim(s)
  {
    RepairKeepsScheme(Trim(s));
  }

  /** Slashes directly before a scheme are dropped. */
  lemma SlashesBeforeSchemeDropped(slashes: string, link: string)
    requires |slashes| > 0 && forall i :: 0 <= i < |slashes| ==> slashes[i] == '/'
    requires HasHttpScheme(link) && IsTrimmed(link)
    ensures FixUrl(Some(slashes + link)) == link
  {
    var s := slashes + link;
    SchemeStart(link);
    assert s[0] == '/' && s[|s| - 1] == link[|link| - 1];
    TrimTrimmed(s);
    SlashRun(slashes, link);
    assert s[|slashes|..] == link;
    assert DropSlashesBeforeScheme(s) == link;
    RepairKeepsScheme(link);
  }

  lemma {:induction false} SlashRun(slashes: string, rest: string)
    requires forall i :: 0 <= i < |slashes| ==> slashes[i] == '/'
    requires rest == [] || rest[0] != '/'
    ensures LeadingSlashes(slashes + rest) == |slashes|
  {
    if slashes == [] {
      assert slashes + rest == rest;
    } else {
      assert (slashes + rest)[1..] == slashes[1..] + rest;
      SlashRun(slashes[1..], rest);
    }
  }

  /** A network-path reference "//host" is given the https scheme. */
  lemma NetworkPathGetsHttps(host: string)
    requires IsTrimmed(host) && host != [] && host[0] != '/' && !HasHttpScheme(host)
    ensures FixUrl(Some("//" + host)) == Https + host
  {
    var s := "//" + host;
    TrimTrimmed(s);
    SlashRun("//", host);
    assert s[2..] == host;
    assert StartsWith(s, "//");
    assert "https:" + s == Https + host;
    HttpsHasScheme(host);
  }

  /** A text with neither a scheme nor leading slashes gets "https://" when
      it contains a dot, and is otherwise only trimmed. */
  lemma BareTextCompleted(s: string)
    requires Trim(s) != [] && Trim(s)[0] != '/' && !HasHttpScheme(Trim(s))
    ensures '.' in Trim(s) ==> FixUrl(Some(s)) == Https + Trim(s)
    ensures '.' !in Trim(s) ==> FixUrl(Some(s)) == Trim(s)
  {
    assert !StartsWith(Trim(s), "//");
  }

  /** Every repaired link is "" or has an http(s) scheme, unless it has no dot. */
  lemma FixedLinkShape(url: Option<string>)
    ensures var r := FixUrl(url);
      r == "" || HasHttpScheme(r) || '.' !in r
  {
    if url.Some? && url.value != "" {
      CompletedShape(ResolveNetworkPath(DropSlashesBeforeScheme(Trim(url.value))));
    }
  }

  lemma CompletedShape(n: string)
    ensures HasHttpScheme(AddMissingScheme(n)) || '.' !in AddMissingScheme(n)
  {
    if !HasHttpScheme(n) && '.' in n {
      HttpsHasScheme(n);
    }
  }

  lemma SuffixTrimmed(s: string, k: nat)
    requires IsTrimmed(s) && k <= |s| && (k == |s| || !IsSpace(s[k]))
    ensures IsTrimmed(s[k..])
  {
  }

  /** The text after the slash repair is still trimmed; a repaired result
      that does not start with a scheme is that text unchanged. */
  lemma RepairShape(t: string)
    requires IsTrimmed(t)
    ensures IsTrimmed(DropSlashesBeforeScheme(t))
    ensures var d := DropSlashesBeforeScheme(t);
      d != t ==> HasHttpScheme(d)
  {
    var k := LeadingSlashes(t);
    if k > 0 && HasHttpScheme(t[k..]) {
      SchemeStart(t[k..]);
      SuffixTrimmed(t, k);
    }
  }

  /** The https scheme in front of a text without trailing whitespace gives a trimmed text. */
  lemma HttpsTrimmed(t: string)
    requires t == [] || !IsSpace(t[|t| - 1])
    ensures IsTrimmed(Https + t) && HasHttpScheme(Https + t)
  {
    HttpsHasScheme(t);
    assert (Https + t)[0] == 'h';
    if t == [] {
      assert Https + t == Https;
    } else {
      assert (Https + t)[|Https + t| - 1] == t[|t| - 1];
    }
  }

  /** The repairs of a trimmed text give a trimmed text they leave alone. */
  lemma RepairStable(t: string)
    requires IsTrimmed(t)
    ensures IsTrimmed(Repair(t)) && Repair(Repair(t)) == Repair(t)
  {
    RepairShape(t);
    var d := DropSlashesBeforeScheme(t);
    if HasHttpScheme(d) {
      RepairKeepsScheme(d);
      SchemeStart(d);
      assert !StartsWith(d, "//");
      assert Repair(t) == d;
    } else if StartsWith(t, "//") {
      assert "https:" + t == Https + t[2..];
      HttpsTrimmed(t[2..]);
      RepairKeepsScheme(Https + t[2..]);
    } else if '.' in t {
      HttpsTrimmed(t);
      RepairKeepsScheme(Https + t);
    }
  }

  /** Repairing a repaired link changes nothing. */
  lemma FixUrlIdempotent(url: Option<string>)
    ensures FixUrl(Some(FixUrl(url))) == FixUrl(url)
  {
    var r := FixUrl(url);
    if r != "" {
      RepairStable(Trim(url.value));
      TrimTrimmed(r);
    }
  }

  lemma SchemeStaysFixed(r: string)
    requires IsTrimmed(r) && HasHttpScheme(r)
    ensures FixUrl(Some(r)) == r
  {
    TrimTrimmed(r);
    SchemeKept(r);
  }
}
