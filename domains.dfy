/**
 * The domain dropdown of the "Generate Email" tab (app.py:102-123): the list of
 * domain names and the index pre-selected from the current address.
 */
module Domains {
  import opened Optional

  /** An entry of the `domains` array returned by the service; only `name` is read. */
  datatype Domain = Domain(name: string)

  /** The name of each domain, in the order the service listed them (app.py:110). */
  function DomainNames(domains: seq<Domain>): (names: seq<string>)
    ensures |names| == |domains|
    ensures forall i :: 0 <= i < |domains| ==> names[i] == domains[i].name
  {
    if domains == [] then [] else [domains[0].name] + DomainNames(domains[1..])
  }

  /**
   * The domain part the app reads off an address (app.py:113): the text after
   * the last '@', or the whole address when it has none.
   */
  function AfterLastAt(address: string): (t: string)
    ensures |t| <= |address|
    ensures t == address[|address| - |t|..]
    ensures '@' !in t
    ensures |t| < |address| ==> address[|address| - |t| - 1] == '@'
  {
    if address == [] then []
    else if address[|address| - 1] == '@' then []
    else AfterLastAt(address[..|address| - 1]) + [address[|address| - 1]]
  }

  /** The first position holding `x`, as the list lookup of app.py:115 returns. */
  function IndexOf<T(==)>(xs: seq<T>, x: T): (k: nat)
    requires x in xs
    ensures k < |xs| && xs[k] == x
    ensures forall j :: 0 <= j < k ==> xs[j] != x
  {
    if xs[0] == x then 0 else 1 + IndexOf(xs[1..], x)
  }

  /**
   * The `default_index` of the domain dropdown. The caller has already stopped
   * when the domain list is empty (app.py:102-104).
   */
  function DefaultDomainIndex(generatedEmail: Option<string>, names: seq<string>): (k: nat)
    requires |names| > 0
    ensures k < |names|
    ensures Truthy(generatedEmail) && AfterLastAt(generatedEmail.value) in names ==>
              names[k] == AfterLastAt(generatedEmail.value) &&
              forall j :: 0 <= j < k ==> names[j] != names[k]
    ensures !(Truthy(generatedEmail) && AfterLastAt(generatedEmail.value) in names) ==> k == 0
  {
    if Truthy(generatedEmail) then
      var current := AfterLastAt(generatedEmail.value);
      if current in names then IndexOf(names, current) else 0
    else
      0
  }

  /**
   * For an address `local@domain` whose domain part is listed, the pre-selected
   * entry is the first one naming that domain.
   */
  lemma {:induction false} DefaultIndexOfAllocatedAddress(local: string, domain: string, names: seq<string>)
    requires '@' !in domain
    requires domain in names
    ensures names[DefaultDomainIndex(Some(local + "@" + domain), names)] == domain
  {
    AfterLastAtOfSuffix(local + "@", domain);
  }

  /** Appending '@'-free text after a string ending in '@' makes that text the domain part. */
  lemma {:induction false} AfterLastAtOfSuffix(prefix: string, domain: string)
    requires |prefix| > 0 && prefix[|prefix| - 1] == '@'
    requires '@' !in domain
    ensures AfterLastAt(prefix + domain) == domain
    decreases |domain|
  {
    var s := prefix + domain;
    if domain == [] {
      assert s == prefix;
    } else {
      var init := domain[..|domain| - 1];
      assert s[..|s| - 1] == prefix + init;
      assert s[|s| - 1] == domain[|domain| - 1];
      AfterLastAtOfSuffix(prefix, init);
      assert init + [domain[|domain| - 1]] == domain;
    }
  }
}
