/** Pure rules the dashboard applies to the loaded list. */
module Dashboard {
  import opened Records
  import opened Ordering

  /** `list.filter(f).length`. */
  function CountWhere(s: seq<Preference>, f: Preference -> bool): (n: nat)
    ensures n <= |s|
  {
    if s == [] then 0
    else CountWhere(s[..|s| - 1], f) + (if f(s[|s| - 1]) then 1 else 0)
  }

  /** Counting over two lists joined is counting over each and adding up. */
  lemma {:induction false} CountWhereSplit(a: seq<Preference>, b: seq<Preference>, f: Preference -> bool)
    ensures CountWhere(a + b, f) == CountWhere(a, f) + CountWhere(b, f)
  {
    if b != [] {
      CountWhereSplit(a, b[..|b| - 1], f);
      assert (a + b)[..|a + b| - 1] == a + b[..|b| - 1];
      assert (a + b)[|a + b| - 1] == b[|b| - 1];
    } else {
      assert a + b == a;
    }
  }

  // Intensity buckets of the statistics panel.

  predicate IsLowIntensity(p: Preference) { p.lightingIntensity < 40 }
  predicate IsMediumIntensity(p: Preference) { 40 <= p.lightingIntensity <= 70 }
  predicate IsHighIntensity(p: Preference) { p.lightingIntensity > 70 }

  datatype IntensityStats = IntensityStats(low: nat, medium: nat, high: nat)

  function IntensityStatsOf(prefs: seq<Preference>): IntensityStats
  {
    IntensityStats(CountWhere(prefs, IsLowIntensity),
                   CountWhere(prefs, IsMediumIntensity),
                   CountWhere(prefs, IsHighIntensity))
  }

  /** Every preference lies in exactly one intensity bucket. */
  lemma IntensityBucketsExclusive(p: Preference)
    ensures IsLowIntensity(p) || IsMediumIntensity(p) || IsHighIntensity(p)
    ensures !(IsLowIntensity(p) && IsMediumIntensity(p))
    ensures !(IsLowIntensity(p) && IsHighIntensity(p))
    ensures !(IsMediumIntensity(p) && IsHighIntensity(p))
  {
  }

  /** The three intensity counts add up to the length of the list. */
  lemma {:induction false} IntensityCountsPartition(prefs: seq<Preference>)
    ensures var st := IntensityStatsOf(prefs); st.low + st.medium + st.high == |prefs|
  {
    if prefs != [] {
      IntensityCountsPartition(prefs[..|prefs| - 1]);
      IntensityBucketsExclusive(prefs[|prefs| - 1]);
    }
  }

  // Colour-temperature buckets of the statistics panel.

  predicate IsWarm(p: Preference) { p.colorTemperature < 3500 }
  predicate IsNeutral(p: Preference) { 3500 <= p.colorTemperature <= 5000 }
  predicate IsCool(p: Preference) { p.colorTemperature > 5000 }

  datatype TemperatureStats = TemperatureStats(warm: nat, neutral: nat, cool: nat)

  function TemperatureStatsOf(prefs: seq<Preference>): TemperatureStats
  {
    TemperatureStats(CountWhere(prefs, IsWarm),
                     CountWhere(prefs, IsNeutral),
                     CountWhere(prefs, IsCool))
  }

  /** Every preference lies in exactly one temperature bucket. */
  lemma TemperatureBucketsExclusive(p: Preference)
    ensures IsWarm(p) || IsNeutral(p) || IsCool(p)
    ensures !(IsWarm(p) && IsNeutral(p)) && !(IsWarm(p) && IsCool(p)) && !(IsNeutral(p) && IsCool(p))
  {
  }

  /** The three temperature counts add up to the length of the list. */
  lemma {:induction false} TemperatureCountsPartition(prefs: seq<Preference>)
    ensures var st := TemperatureStatsOf(prefs); st.warm + st.neutral + st.cool == |prefs|
  {
    if prefs != [] {
      TemperatureCountsPartition(prefs[..|prefs| - 1]);
      TemperatureBucketsExclusive(prefs[|prefs| - 1]);
    }
  }

  // The colour swatch of the preference table.

  const WarmColour := "#ffb347"
  const NeutralColour := "#fffacd"
  const CoolColour := "#add8e6"

  function SwatchColour(temperature: int): string
  {
    if temperature < 3500 then WarmColour
    else if temperature < 5000 then NeutralColour
    else CoolColour
  }

  /**
   * The swatch follows the statistics buckets everywhere except at exactly 5000 K,
   * which the statistics count as neutral and the swatch paints cool.
   */
  lemma SwatchAgreesWithBucketsExceptAt5000(p: Preference)
    ensures SwatchColour(p.colorTemperature) == WarmColour <==> IsWarm(p)
    ensures SwatchColour(p.colorTemperature) == NeutralColour <==> IsNeutral(p) && p.colorTemperature != 5000
    ensures SwatchColour(p.colorTemperature) == CoolColour <==> IsCool(p) || p.colorTemperature == 5000
  {
  }

  // Owner matching.

  /** `toLowerCase` on one character (ASCII letters only). */
  function LowerChar(c: char): char
  {
    if 'A' <= c <= 'Z' then (c as int + 32) as char else c
  }

  function LowerCase(s: string): (r: string)
    ensures |r| == |s|
    ensures forall i :: 0 <= i < |s| ==> r[i] == LowerChar(s[i])
  {
    if s == [] then [] else [LowerChar(s[0])] + LowerCase(s[1..])
  }

  /** `isOwner`: the account and the address are equal up to letter case. */
  predicate IsOwner(account: string, address: string)
  {
    LowerCase(account) == LowerCase(address)
  }

  /** Ownership is compared character by character, ignoring letter case. */
  lemma IsOwnerCharwise(account: string, address: string)
    ensures IsOwner(account, address) <==>
      |account| == |address| &&
      forall i :: 0 <= i < |account| ==> LowerChar(account[i]) == LowerChar(address[i])
  {
  }

  /** Matching is an equivalence: reflexive, symmetric and transitive. */
  lemma IsOwnerEquivalence(a: string, b: string, c: string)
    ensures IsOwner(a, a)
    ensures IsOwner(a, b) ==> IsOwner(b, a)
    ensures IsOwner(a, b) && IsOwner(b, c) ==> IsOwner(a, c)
  {
  }

  /** An address lower-cased (as many wallets report it) still matches its original form. */
  lemma LowerCasedAddressMatches(address: string)
    ensures IsOwner(address, LowerCase(address))
  {
    assert LowerCase(LowerCase(address)) == LowerCase(address);
  }

  /** Two addresses that differ anywhere in a character other than a letter never match. */
  lemma NonLetterDifferenceNotOwner(account: string, address: string, i: nat)
    requires i < |account| && i < |address|
    requires account[i] != address[i]
    requires !('A' <= account[i] <= 'Z' || 'a' <= account[i] <= 'z')
    requires !('A' <= address[i] <= 'Z' || 'a' <= address[i] <= 'z')
    ensures !IsOwner(account, address)
  {
    assert LowerCase(account)[i] == account[i];
    assert LowerCase(address)[i] == address[i];
  }

  /** The "My Preferences" table: `preferences.filter(p => isOwner(p.owner))`, in list order. */
  function MyPreferences(prefs: seq<Preference>, account: string): (r: seq<Preference>)
    ensures |r| <= |prefs|
  {
    if prefs == [] then []
    else
      var last := prefs[|prefs| - 1];
      MyPreferences(prefs[..|prefs| - 1], account) + (if IsOwner(account, last.owner) then [last] else [])
  }

  /**
   * Each owned preference appears in the table as often as in the loaded list,
   * and no other preference appears at all.
   */
  lemma {:induction false} MyPreferencesMultiplicity(prefs: seq<Preference>, account: string)
    ensures forall p ::
      multiset(MyPreferences(prefs, account))[p] == if IsOwner(account, p.owner) then multiset(prefs)[p] else 0
  {
    if prefs != [] {
      var last, init := prefs[|prefs| - 1], prefs[..|prefs| - 1];
      MyPreferencesMultiplicity(init, account);
      assert prefs == init + [last];
      assert multiset(prefs) == multiset(init) + multiset{last};
    }
  }

  /** The table holds exactly the loaded preferences whose owner matches the account. */
  lemma MyPreferencesMembers(prefs: seq<Preference>, account: string)
    ensures forall p :: p in MyPreferences(prefs, account) <==> p in prefs && IsOwner(account, p.owner)
  {
    MyPreferencesMultiplicity(prefs, account);
    forall p ensures p in MyPreferences(prefs, account) <==> p in prefs && IsOwner(account, p.owner) {
      assert p in MyPreferences(prefs, account) <==> multiset(MyPreferences(prefs, account))[p] > 0;
      assert p in prefs <==> multiset(prefs)[p] > 0;
    }
  }

  /** The filter keeps list order: filtering a joined list joins the filtered parts. */
  lemma {:induction false} MyPreferencesSplit(a: seq<Preference>, b: seq<Preference>, account: string)
    ensures MyPreferences(a + b, account) == MyPreferences(a, account) + MyPreferences(b, account)
  {
    if b != [] {
      var init, last := b[..|b| - 1], b[|b| - 1];
      var tail := if IsOwner(account, last.owner) then [last] else [];
      var ab := a + b;
      assert ab[..|ab| - 1] == a + init;
      assert ab[|ab| - 1] == last;
      calc {
        MyPreferences(ab, account);
        MyPreferences(a + init, account) + tail;
        { MyPreferencesSplit(a, init, account); }
        (MyPreferences(a, account) + MyPreferences(init, account)) + tail;
        MyPreferences(a, account) + (MyPreferences(init, account) + tail);
        MyPreferences(a, account) + MyPreferences(b, account);
      }
    } else {
      assert a + b == a;
    }
  }

  /** The "My Preferences" rows of a newest-first list are newest first too. */
  lemma {:induction false} MyPreferencesKeepsSorted(prefs: seq<Preference>, account: string)
    requires SortedDesc(prefs)
    ensures SortedDesc(MyPreferences(prefs, account))
  {
    if prefs != [] {
      var last := prefs[|prefs| - 1];
      var init := prefs[..|prefs| - 1];
      var rest := MyPreferences(init, account);
      MyPreferencesKeepsSorted(init, account);
      MyPreferencesMembers(init, account);
      if IsOwner(account, last.owner) {
        forall k | 0 <= k < |rest| ensures rest[k].timestamp >= last.timestamp {
          assert rest[k] in init;
        }
      }
    }
  }
}
