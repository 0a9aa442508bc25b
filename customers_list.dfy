/** The customers page: the search box and the one-line address preview. */
module CustomersList {
  import opened Types
  import opened Strings
  import opened Seqs

  /** The search predicate: the lower-cased term occurs in the lower-cased name,
      or in the email or the phone when the customer has one (`?.` skips a
      missing field). */
  predicate Matches(c: Customer, term: string)
    // the name is always searched, so an empty term finds everyone
    ensures Includes(Lower(c.name), Lower(term)) ==> Matches(c, term)
    ensures term == "" ==> Matches(c, term)
    // a customer without email and phone is found by the name alone
    ensures c.email.None? && c.phone.None? && Matches(c, term) ==> Includes(Lower(c.name), Lower(term))
  {
    IncludesEmpty(Lower(c.name));
    var t := Lower(term);
    || Includes(Lower(c.name), t)
    || (c.email.Some? && Includes(Lower(c.email.value), t))
    || (c.phone.Some? && Includes(Lower(c.phone.value), t))
  }

  /** `filteredCustomers`. */
  function FilterCustomers(customers: seq<Customer>, term: string): (r: seq<Customer>)
    ensures forall c :: c in r <==> c in customers && Matches(c, term)
    ensures IsSubsequence(r, customers)
  {
    var keep := (c: Customer) => Matches(c, term);
    FilterIsSubsequence(customers, keep);
    Filter(customers, keep)
  }

  /** An empty search box lists every customer, in the stored order. */
  lemma EmptySearchKeepsAll(customers: seq<Customer>)
    ensures FilterCustomers(customers, "") == customers
  {
    forall i | 0 <= i < |customers|
      ensures Matches(customers[i], "")
    {
      IncludesEmpty(Lower(customers[i].name));
    }
    FilterKeepsAll(customers, (c: Customer) => Matches(c, ""));
  }

  /** Matching is a substring test: the term occurs somewhere in one of the fields. */
  lemma MatchesIffOccurs(c: Customer, term: string)
    ensures Matches(c, term) <==>
      || (exists i :: OccursAt(Lower(c.name), Lower(term), i))
      || (c.email.Some? && exists i :: OccursAt(Lower(c.email.value), Lower(term), i))
      || (c.phone.Some? && exists i :: OccursAt(Lower(c.phone.value), Lower(term), i))
  {
    IncludesIffOccurs(Lower(c.name), Lower(term));
    if c.email.Some? {
      IncludesIffOccurs(Lower(c.email.value), Lower(term));
    }
    if c.phone.Some? {
      IncludesIffOccurs(Lower(c.phone.value), Lower(term));
    }
  }

  /** Case does not matter, neither in the term nor in the fields searched. */
  lemma MatchesIgnoresCase(c: Customer, term: string)
    ensures Matches(c, Lower(term)) == Matches(c, term)
    ensures Matches(c.(name := Lower(c.name)), term) == Matches(c, term)
  {
    LowerIdempotent(term);
    LowerIdempotent(c.name);
  }

  /** Without an email or a phone, only the name can match. */
  lemma NoContactMatchesByName(c: Customer, term: string)
    requires c.email.None? && c.phone.None?
    ensures Matches(c, term) <==> Includes(Lower(c.name), Lower(term))
  {
  }

  /** `t` inside `u` inside `s` means `t` inside `s`. */
  lemma IncludesTransitive(s: string, u: string, t: string)
    requires Includes(s, u) && Includes(u, t)
    ensures Includes(s, t)
  {
    IncludesIffOccurs(s, u);
    IncludesIffOccurs(u, t);
    var i :| OccursAt(s, u, i);
    var j :| OccursAt(u, t, j);
    forall k | 0 <= k < |t|
      ensures s[i + j + k] == t[k]
    {
      assert t[k] == u[j..j + |t|][k] == u[j + k];
      assert u[j + k] == s[i..i + |u|][j + k];
    }
    assert s[i + j..i + j + |t|] == t;
    assert OccursAt(s, t, i + j);
    IncludesIffOccurs(s, t);
  }

  /** Typing more of a term narrows the list: a customer found by the longer term
      is found by any part of it. */
  lemma LongerTermNarrows(customers: seq<Customer>, term: string, longer: string)
    requires Includes(Lower(longer), Lower(term))
    ensures forall c :: c in FilterCustomers(customers, longer) ==> c in FilterCustomers(customers, term)
  {
    forall c | Matches(c, longer)
      ensures Matches(c, term)
    {
      if Includes(Lower(c.name), Lower(longer)) {
        IncludesTransitive(Lower(c.name), Lower(longer), Lower(term));
      } else if c.email.Some? && Includes(Lower(c.email.value), Lower(longer)) {
        IncludesTransitive(Lower(c.email.value), Lower(longer), Lower(term));
      } else {
        IncludesTransitive(Lower(c.phone.value), Lower(longer), Lower(term));
      }
    }
  }

  /** `address.split('\n')[0]`: the address up to its first line break. */
  function AddressPreview(address: string): (line: string)
    ensures |line| <= |address| && line == address[..|line|]
    ensures '\n' !in line
    ensures |line| == |address| || address[|line|] == '\n'
  {
    SplitHead(address, '\n');
    Split(address, '\n')[0]
  }

  /** The address row of a card: shown only for a truthy address. */
  function AddressRow(c: Customer): (row: Option<string>)
    ensures row.Some? <==> Present(c.address)
    ensures row.Some? ==> row.value == AddressPreview(c.address.value)
  {
    if Present(c.address) then Some(AddressPreview(c.address.value)) else None
  }

  /** A one-line address is shown whole. */
  lemma SingleLineAddressShownWhole(address: string)
    requires '\n' !in address
    ensures AddressPreview(address) == address
  {
  }
}
