/** The SLD/TLD split every API module performs: `parts = name.split(".")`,
    SLD `parts[0]`, TLD `".".join(parts[1:])`, i.e. a split at the FIRST dot
    (no public-suffix rules). */
module DomainName {
  import opened Text
  import opened Wrappers

  function SplitDomainName(domain: string): (r: (string, string))
    ensures '.' !in r.0
    ensures '.' in domain ==> r.0 == domain[..IndexOf(domain, '.')] && r.1 == domain[IndexOf(domain, '.') + 1..]
    ensures '.' in domain ==> r.0 + "." + r.1 == domain
    ensures '.' !in domain ==> r == (domain, "")
  {
    var parts := Split(domain, '.');
    if '.' in domain then
      var i := IndexOf(domain, '.');
      JoinSplit(domain[i + 1..], '.');
      assert domain == domain[..i] + "." + domain[i + 1..];
      (parts[0], Join(".", parts[1..]))
    else
      (parts[0], Join(".", parts[1..]))
  }

  /** `domain.split(".", 1)[1]`: the text after the first dot; `None` where
      Python raises `IndexError` (no dot). */
  function AfterFirstDot(domain: string): (r: Option<string>)
    ensures r.Some? <==> '.' in domain
    ensures r.Some? ==> r.value == SplitDomainName(domain).1
  {
    if '.' in domain then Some(domain[IndexOf(domain, '.') + 1..]) else None
  }

  /** A multi-label suffix stays with the TLD: "foo.bar.co.uk" gives ("foo", "bar.co.uk"). */
  lemma FirstDotSplitExample()
    ensures SplitDomainName("foo.bar.co.uk") == ("foo", "bar.co.uk")
  {
    var d := "foo.bar.co.uk";
    assert d == "foo" + ['.'] + "bar.co.uk";
    IndexOfAfter("foo", '.', "bar.co.uk");
    assert IndexOf(d, '.') == 3;
    assert d[..3] == "foo" && d[4..] == "bar.co.uk";
  }
}
