/**
 * The pandit directory on the booking page: the list fetched from
 * `profiles` (pandits only, newest first) and the case-insensitive search
 * over name, specialization and address.
 */
module Directory {
  import opened Wrappers
  import opened Text

  /** A pandit's profile row as the booking page receives it. */
  datatype Pandit = Pandit(
    id: string,
    fullName: string,
    email: string,
    phone: Option<string>,
    address: Option<string>,
    specialization: Option<string>,
    experienceYears: Option<int>,
    ratePerHour: Option<int>,
    createdAt: int)

  /** `field?.toLowerCase().includes(query.toLowerCase())`: a null field yields `undefined`, which is falsy. */
  predicate FieldMatches(field: Option<string>, query: string)
  {
    field.Some? && Includes(Lower(field.value), Lower(query))
  }

  /** The predicate handed to `pandits.filter`. */
  predicate Matches(p: Pandit, query: string)
  {
    Includes(Lower(p.fullName), Lower(query))
    || FieldMatches(p.specialization, query)
    || FieldMatches(p.address, query)
  }

  /** `pandits.filter(...)`: the pandits that match, in their fetched order. */
  function Filter(pandits: seq<Pandit>, query: string): (r: seq<Pandit>)
    ensures |r| <= |pandits|
    ensures forall p :: p in r <==> p in pandits && Matches(p, query)
  {
    if pandits == [] then
      []
    else
      var init, last := pandits[..|pandits| - 1], pandits[|pandits| - 1];
      assert pandits == init + [last];
      Filter(init, query) + if Matches(last, query) then [last] else []
  }

  /** Every matching pandit is kept as many times as it was fetched; no other pandit is kept. */
  lemma {:induction false} FilterCounts(pandits: seq<Pandit>, query: string)
    ensures forall p ::
              multiset(Filter(pandits, query))[p] == if Matches(p, query) then multiset(pandits)[p] else 0
  {
    if pandits != [] {
      var n := |pandits| - 1;
      FilterCounts(pandits[..n], query);
      assert pandits == pandits[..n] + [pandits[n]];
    }
  }

  /** The positions, in the fetched list, of the pandits the filter keeps, in increasing order. */
  function KeptPositions(pandits: seq<Pandit>, query: string): (idx: seq<nat>)
    ensures forall k :: 0 <= k < |idx| ==> idx[k] < |pandits| && Matches(pandits[idx[k]], query)
    ensures forall k, l :: 0 <= k < l < |idx| ==> idx[k] < idx[l]
    ensures forall j :: 0 <= j < |pandits| && Matches(pandits[j], query) ==> j in idx
  {
    if pandits == [] then
      []
    else
      var n := |pandits| - 1;
      var front := KeptPositions(pandits[..n], query);
      front + if Matches(pandits[n], query) then [n] else []
  }

  /**
   * The filter is exactly the selection of the matching positions: its k-th
   * entry is the pandit at the k-th matching position of the fetched list.
   * So it keeps every match, drops every non-match, and preserves the order.
   */
  lemma {:induction false} FilterSelectsKeptPositions(pandits: seq<Pandit>, query: string)
    ensures |Filter(pandits, query)| == |KeptPositions(pandits, query)|
    ensures forall k :: 0 <= k < |Filter(pandits, query)| ==>
      Filter(pandits, query)[k] == pandits[KeptPositions(pandits, query)[k]]
  {
    if pandits != [] {
      var n := |pandits| - 1;
      var init := pandits[..n];
      FilterSelectsKeptPositions(init, query);
      var f, idx := Filter(init, query), KeptPositions(init, query);
      var keep := Matches(pandits[n], query);
      var r, ix := Filter(pandits, query), KeptPositions(pandits, query);
      assert r == f + if keep then [pandits[n]] else [];
      assert ix == idx + if keep then [n] else [];
      forall k | 0 <= k < |r|
        ensures r[k] == pandits[ix[k]]
      {
        if k < |f| {
          assert r[k] == f[k] && ix[k] == idx[k];
          assert init[idx[k]] == pandits[idx[k]];
        } else {
          assert r[k] == pandits[n] && ix[k] == n;
        }
      }
    }
  }

  /** The fetch orders by `created_at`, newest first. */
  predicate NewestFirst(pandits: seq<Pandit>)
  {
    forall i, j :: 0 <= i < j < |pandits| ==> pandits[i].createdAt >= pandits[j].createdAt
  }

  /** Filtering a newest-first list gives a newest-first list. */
  lemma FilterKeepsNewestFirst(pandits: seq<Pandit>, query: string)
    requires NewestFirst(pandits)
    ensures NewestFirst(Filter(pandits, query))
  {
    FilterSelectsKeptPositions(pandits, query);
  }

  /** The empty query matches every pandit, so the whole list is shown. */
  lemma {:induction false} EmptyQueryKeepsAll(pandits: seq<Pandit>)
    ensures Filter(pandits, "") == pandits
  {
    if pandits != [] {
      var n := |pandits| - 1;
      EmptyQueryKeepsAll(pandits[..n]);
      assert OccursAt(Lower(pandits[n].fullName), Lower(""), 0);
      assert pandits[..n] + [pandits[n]] == pandits;
    }
  }

  /** Two queries that lower-case alike select the same pandits. */
  lemma {:induction false} FilterIgnoresQueryCase(pandits: seq<Pandit>, q1: string, q2: string)
    requires Lower(q1) == Lower(q2)
    ensures Filter(pandits, q1) == Filter(pandits, q2)
  {
    if pandits != [] {
      FilterIgnoresQueryCase(pandits[..|pandits| - 1], q1, q2);
    }
  }

  /** Typing the query in upper or lower case gives the same cards as its lower-cased form. */
  lemma FilterByLoweredQuery(pandits: seq<Pandit>, query: string)
    ensures Filter(pandits, Lower(query)) == Filter(pandits, query)
  {
    LowerIdempotent(query);
    FilterIgnoresQueryCase(pandits, Lower(query), query);
  }

  /** With no specialization and no address, only the name can match. */
  lemma NullFieldsNeverMatch(p: Pandit, query: string)
    requires p.specialization.None? && p.address.None?
    ensures Matches(p, query) <==> exists i :: OccursAt(Lower(p.fullName), Lower(query), i)
  {
  }

  /** Filtering twice with the same query is filtering once. */
  lemma {:induction false} FilterIdempotent(pandits: seq<Pandit>, query: string)
    ensures Filter(Filter(pandits, query), query) == Filter(pandits, query)
  {
    if pandits != [] {
      var n := |pandits| - 1;
      FilterIdempotent(pandits[..n], query);
      var front := Filter(pandits[..n], query);
      if Matches(pandits[n], query) {
        var r := front + [pandits[n]];
        assert Filter(pandits, query) == r;
        assert r[..|r| - 1] == front;
        assert Filter(r, query) == Filter(front, query) + [pandits[n]];
      } else {
        assert Filter(pandits, query) == front;
      }
    }
  }

  /** The first three characters of `q`, lower-cased, stand side by side in `s` at `i`. */
  predicate OpensAt(s: string, q: string, i: int)
    requires |q| >= 3
  {
    0 <= i && i + 2 < |s|
    && LowerChar(s[i]) == LowerChar(q[0]) && LowerChar(s[i + 1]) == LowerChar(q[1])
    && LowerChar(s[i + 2]) == LowerChar(q[2])
  }

  /** A field in which the query's first three characters, lower-cased, never stand side by side cannot match it. */
  lemma AbsentOpeningNeverMatches(s: string, q: string)
    requires |q| >= 3
    requires forall i :: !OpensAt(s, q, i)
    ensures !Includes(Lower(s), Lower(q))
  {
    forall i | 0 <= i
      ensures !OccursAt(Lower(s), Lower(q), i)
    {
      if i + |q| <= |s| {
        var w := Lower(s)[i..i + |q|];
        assert w[0] == LowerChar(s[i]) && w[1] == LowerChar(s[i + 1]) && w[2] == LowerChar(s[i + 2]);
        assert Lower(q)[0] == LowerChar(q[0]) && Lower(q)[1] == LowerChar(q[1]) && Lower(q)[2] == LowerChar(q[2]);
        assert !OpensAt(s, q, i);
      }
    }
  }

  /** The sample pandits seeded for testing, in fetched order. */
  const SeedPandits: seq<Pandit> := [
    Pandit("sample-pandit-1", "Pandit Ramesh Sharma", "pandit1@example.com", Some("+91 9876543210"),
           Some("Varanasi, Uttar Pradesh"), Some("Vedic Rituals, Wedding Ceremonies"), Some(15), Some(2000), 3),
    Pandit("sample-pandit-2", "Pandit Suresh Gupta", "pandit2@example.com", Some("+91 9876543211"),
           Some("Haridwar, Uttarakhand"), Some("Griha Pravesh, Puja Ceremonies"), Some(12), Some(1800), 2),
    Pandit("sample-pandit-3", "Pandit Mahesh Tiwari", "pandit3@example.com", Some("+91 9876543212"),
           Some("Mathura, Uttar Pradesh"), Some("Krishna Puja, Bhagavat Katha"), Some(20), Some(2500), 1)
  ]

  /** A pandit none of whose three fields holds the query's opening does not match it. */
  lemma AbsentOpeningInAllFields(p: Pandit, q: string)
    requires |q| >= 3 && p.specialization.Some? && p.address.Some?
    requires forall i :: !OpensAt(p.fullName, q, i)
    requires forall i :: !OpensAt(p.specialization.value, q, i)
    requires forall i :: !OpensAt(p.address.value, q, i)
    ensures !Matches(p, q)
  {
    AbsentOpeningNeverMatches(p.fullName, q);
    AbsentOpeningNeverMatches(p.specialization.value, q);
    AbsentOpeningNeverMatches(p.address.value, q);
  }

  lemma VaranasiMatchesFirstSeed()
    ensures Matches(SeedPandits[0], "Varanasi")
  {
    var address := SeedPandits[0].address.value;
    assert Lower(address)[..8] == Lower("Varanasi");
    assert OccursAt(Lower(address), Lower("Varanasi"), 0);
  }

  lemma VaranasiMissesSecondSeed()
    ensures !Matches(SeedPandits[1], "Varanasi")
  {
    AbsentOpeningInAllFields(SeedPandits[1], "Varanasi");
  }

  lemma VaranasiMissesThirdSeed()
    ensures !Matches(SeedPandits[2], "Varanasi")
  {
    AbsentOpeningInAllFields(SeedPandits[2], "Varanasi");
  }

  /** Of three pandits, only the first matching: the filter keeps just that one. */
  lemma OnlyFirstOfThreeKept(ps: seq<Pandit>, q: string)
    requires |ps| == 3 && Matches(ps[0], q) && !Matches(ps[1], q) && !Matches(ps[2], q)
    ensures Filter(ps, q) == [ps[0]]
  {
    assert Filter(ps[..1], q) == [ps[0]] by {
      assert ps[..1][..0] == [];
    }
    assert Filter(ps[..2], q) == [ps[0]] by {
      assert ps[..2][..1] == ps[..1];
    }
  }

  /** Searching the seeded list for "Varanasi" finds only the pandit based there. */
  lemma VaranasiSearch()
    ensures Filter(SeedPandits, "Varanasi") == [SeedPandits[0]]
  {
    VaranasiMatchesFirstSeed();
    VaranasiMissesSecondSeed();
    VaranasiMissesThirdSeed();
    OnlyFirstOfThreeKept(SeedPandits, "Varanasi");
  }
}
