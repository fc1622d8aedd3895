/** The profile page: the level progress bar, the usage statistics and
    achievements derived from the usage history, the date-sorted history tab,
    the name editor's check and the coin-package purchase. */
module ProfileStats {
  import opened Wrappers
  import opened Text
  import opened Ledger

  // ---------------------------------------------------------------------------
  // Progress bar
  // ---------------------------------------------------------------------------

  /** floor(x / y) of two integers taken as exact reals equals integer division. */
  lemma RealFloorIsDiv(x: int, y: int)
    requires y > 0
    ensures ((x as real) / (y as real)).Floor == x / y
  {
    var q, m := x / y, x % y;
    assert x == q * y + m && 0 <= m < y;
    assert (x as real) / (y as real) == q as real + (m as real) / (y as real);
    assert 0.0 <= (m as real) / (y as real) < 1.0;
  }

  /** `progressPercentage`: the experience as a percentage of the threshold,
      rounded down. In exact arithmetic it is the integer quotient
      100 * experience / threshold, so it stays in 0..99 while the profile
      keeps its experience below the threshold. */
  function ProgressPercentage(experience: int, toNext: int): (r: int)
    requires toNext > 0
    ensures r == (100 * experience) / toNext
    ensures 0 <= experience < toNext ==> 0 <= r <= 99
  {
    assert (experience as real / toNext as real) * 100.0 == ((100 * experience) as real) / (toNext as real);
    RealFloorIsDiv(100 * experience, toNext);
    DivBelow(100 * experience, toNext);
    ((experience as real / toNext as real) * 100.0).Floor
  }

  lemma DivBelow(n: int, t: int)
    requires t > 0
    ensures 0 <= n < 100 * t ==> 0 <= n / t <= 99
  {
    var q := n / t;
    assert n == q * t + n % t;
    if q >= 100 {
      MulMonotone(t, 100, q);
    }
  }

  // ---------------------------------------------------------------------------
  // Usage statistics
  // ---------------------------------------------------------------------------

  /** How many history entries have `key` in their feature name ("Roteiros"
      counts "Roteiro", "Ideias Geradas" counts "Ideia"). */
  function CountFeature(h: seq<UsageEvent>, key: string): (r: nat)
    ensures r <= |h|
    decreases |h|
  {
    if |h| == 0 then 0
    else CountFeature(h[..|h| - 1], key) + (if Contains(h[|h| - 1].feature, key) then 1 else 0)
  }

  /** "Tubecoins Gastos": the coins spent over the whole history, summed from
      the first entry on. */
  function TotalSpent(h: seq<UsageEvent>): (r: int)
    ensures (forall i :: 0 <= i < |h| ==> h[i].coinsSpent >= 0) ==>
      r >= 0 && forall i :: 0 <= i < |h| ==> h[i].coinsSpent <= r
    decreases |h|
  {
    if |h| == 0 then 0
    else
      var init := h[..|h| - 1];
      assert forall i :: 0 <= i < |init| ==> init[i] == h[i];
      TotalSpent(init) + h[|h| - 1].coinsSpent
  }

  /** The sum does not depend on the direction: `reduce` folds from the first
      entry, and adding an entry at the front adds its coins. */
  lemma {:induction false} TotalSpentFront(e: UsageEvent, h: seq<UsageEvent>)
    ensures TotalSpent([e] + h) == e.coinsSpent + TotalSpent(h)
    decreases |h|
  {
    if |h| > 0 {
      var init := h[..|h| - 1];
      assert ([e] + h)[..|h|] == [e] + init;
      TotalSpentFront(e, init);
    } else {
      assert [e] + h == [e];
      assert [e][..0] == [];
    }
  }

  /** The count is the full history length exactly when every entry matches,
      and zero exactly when none does. */
  lemma {:induction false} CountFeatureExtremes(h: seq<UsageEvent>, key: string)
    ensures CountFeature(h, key) == |h| <==> forall i :: 0 <= i < |h| ==> Contains(h[i].feature, key)
    ensures CountFeature(h, key) == 0 <==> forall i :: 0 <= i < |h| ==> !Contains(h[i].feature, key)
    decreases |h|
  {
    if |h| > 0 {
      var init := h[..|h| - 1];
      CountFeatureExtremes(init, key);
      assert forall i :: 0 <= i < |init| ==> init[i] == h[i];
    }
  }

  /** Recording one more use adds that use to every statistic. */
  lemma AppendUpdatesStatistics(h: seq<UsageEvent>, e: UsageEvent, key: string)
    ensures |h + [e]| == |h| + 1
    ensures CountFeature(h + [e], key) == CountFeature(h, key) + (if Contains(e.feature, key) then 1 else 0)
    ensures TotalSpent(h + [e]) == TotalSpent(h) + e.coinsSpent
  {
    assert (h + [e])[..|h|] == h;
  }

  /** A history that extends another never has a smaller count. */
  lemma {:induction false} CountFeatureMonotone(h: seq<UsageEvent>, h2: seq<UsageEvent>, key: string)
    requires h <= h2
    ensures CountFeature(h, key) <= CountFeature(h2, key)
    decreases |h2|
  {
    if |h2| > |h| {
      assert h <= h2[..|h2| - 1];
      CountFeatureMonotone(h, h2[..|h2| - 1], key);
    } else {
      assert h == h2;
    }
  }

  /** A successful spend adds exactly its amount to "Tubecoins Gastos" and one
      to "Vídeos Criados". */
  lemma SpendUpdatesStatistics(p: Profile, amount: int, feature: string, date: string)
    requires CanLevel(p) && p.tubecoins >= amount
    ensures var q := SpendIntended(Some(p), amount, feature, date).user.value;
      && |q.usageHistory| == |p.usageHistory| + 1
      && TotalSpent(q.usageHistory) == TotalSpent(p.usageHistory) + amount
  {
    AppendUpdatesStatistics(p.usageHistory, UsageEvent(date, feature, amount), "");
  }

  /** The spend as written loses its history entry, so a successful spend
      leaves "Vídeos Criados", "Tubecoins Gastos" and every feature count as
      they were. */
  lemma SpendAsWrittenKeepsStatistics(p: Profile, amount: int, feature: string, date: string, key: string)
    requires CanLevel(p) && p.tubecoins >= amount
    ensures var r := SpendAsWritten(Some(p), amount, feature, date);
      && r.ok
      && |r.user.value.usageHistory| == |p.usageHistory|
      && TotalSpent(r.user.value.usageHistory) == TotalSpent(p.usageHistory)
      && CountFeature(r.user.value.usageHistory, key) == CountFeature(p.usageHistory, key)
  {
  }

  // ---------------------------------------------------------------------------
  // Achievements
  // ---------------------------------------------------------------------------

  datatype Achievements = Achievements(
    beginner: bool,      // "Iniciante": level 1
    experienced: bool,   // "Criador Experiente": level 5
    master: bool,        // "Mestre do YouTube": level 10
    scriptwriter: bool,  // "Roteirista": 5 scripts
    ideator: bool,       // "Idealizador": 10 ideas
    superUser: bool)     // "Super Usuário": 20 uses

  function Unlocked(p: Profile): (r: Achievements)
    ensures r.master ==> r.experienced
    ensures r.experienced ==> r.beginner
    ensures r.scriptwriter ==> |p.usageHistory| >= 5
    ensures r.ideator ==> |p.usageHistory| >= 10
    ensures r.beginner <==> p.level >= 1
    ensures r.experienced <==> p.level >= 5
    ensures r.master <==> p.level >= 10
    ensures r.scriptwriter <==> CountFeature(p.usageHistory, "Roteiro") >= 5
    ensures r.ideator <==> CountFeature(p.usageHistory, "Ideia") >= 10
    ensures r.superUser <==> |p.usageHistory| >= 20
  {
    var h := p.usageHistory;
    Achievements(
      p.level >= 1, p.level >= 5, p.level >= 10,
      CountFeature(h, "Roteiro") >= 5, CountFeature(h, "Ideia") >= 10, |h| >= 20)
  }

  /** `n` successive corrected spends of the same amount on the same feature,
      or None as soon as the ledger refuses one. */
  function SpendRepeatedly(p: Profile, n: nat, amount: int, feature: string, date: string): (r: Option<Profile>)
    requires CanLevel(p)
    ensures r.Some? ==> CanLevel(r.value) && r.value.level >= p.level
    decreases n
  {
    if n == 0 then Some(p)
    else
      var s := SpendIntended(Some(p), amount, feature, date);
      if s.ok then SpendRepeatedly(s.user.value, n - 1, amount, feature, date) else None
  }

  /** While the balance covers them, `n` spends all go through. They add `n`
      uses, and `n` to the count of every key the feature name contains. */
  lemma {:induction false} RepeatedSpendsCount(p: Profile, n: nat, amount: int, feature: string, date: string, key: string)
    requires CanLevel(p) && amount >= 0 && n * amount <= p.tubecoins
    ensures SpendRepeatedly(p, n, amount, feature, date).Some?
    ensures |SpendRepeatedly(p, n, amount, feature, date).value.usageHistory| == |p.usageHistory| + n
    ensures CountFeature(SpendRepeatedly(p, n, amount, feature, date).value.usageHistory, key)
      == CountFeature(p.usageHistory, key) + (if Contains(feature, key) then n else 0)
    decreases n
  {
    if n > 0 {
      assert p.tubecoins >= amount by {
        assert n * amount == amount + (n - 1) * amount;
        assert (n - 1) * amount >= 0;
      }
      var q := SpendIntended(Some(p), amount, feature, date).user.value;
      AppendUpdatesStatistics(p.usageHistory, UsageEvent(date, feature, amount), key);
      LevelBonusNonNegative(p.level, q.level);
      assert (n - 1) * amount <= q.tubecoins by {
        assert n * amount == amount + (n - 1) * amount;
      }
      RepeatedSpendsCount(q, n - 1, amount, feature, date, key);
    }
  }

  /** A newly registered user holds only "Iniciante". With spends of at most 5
      coins, the 20th unlocks "Super Usuário" and the 19th does not. With a
      feature naming "Roteiro", the 5th unlocks "Roteirista" and the 4th does
      not. */
  lemma SpendsUnlockAchievements(id: int, name: string, email: string, amount: int, feature: string, date: string)
    requires 0 <= amount <= 5
    ensures Unlocked(Register(id, name, email)) == Achievements(true, false, false, false, false, false)
    ensures SpendRepeatedly(Register(id, name, email), 19, amount, feature, date).Some?
    ensures !Unlocked(SpendRepeatedly(Register(id, name, email), 19, amount, feature, date).value).superUser
    ensures SpendRepeatedly(Register(id, name, email), 20, amount, feature, date).Some?
    ensures Unlocked(SpendRepeatedly(Register(id, name, email), 20, amount, feature, date).value).superUser
    ensures Contains(feature, "Roteiro") ==>
      && SpendRepeatedly(Register(id, name, email), 5, amount, feature, date).Some?
      && Unlocked(SpendRepeatedly(Register(id, name, email), 5, amount, feature, date).value).scriptwriter
      && SpendRepeatedly(Register(id, name, email), 4, amount, feature, date).Some?
      && !Unlocked(SpendRepeatedly(Register(id, name, email), 4, amount, feature, date).value).scriptwriter
  {
    var p := Register(id, name, email);
    RepeatedSpendsCount(p, 19, amount, feature, date, "");
    RepeatedSpendsCount(p, 20, amount, feature, date, "");
    RepeatedSpendsCount(p, 5, amount, feature, date, "Roteiro");
    RepeatedSpendsCount(p, 4, amount, feature, date, "Roteiro");
  }

  /** Every achievement unlocked in `a` is unlocked in `b`. */
  predicate Includes(b: Achievements, a: Achievements) {
    && (a.beginner ==> b.beginner) && (a.experienced ==> b.experienced)
    && (a.master ==> b.master) && (a.scriptwriter ==> b.scriptwriter)
    && (a.ideator ==> b.ideator) && (a.superUser ==> b.superUser)
  }

  /** `q` is a later state of `p`: no lower level, and the history only grew
      at the end. */
  predicate Progressed(p: Profile, q: Profile) {
    q.level >= p.level && p.usageHistory <= q.usageHistory
  }

  /** Achievements are thresholds on monotone quantities, so none is revoked. */
  lemma AchievementsNeverRevoked(p: Profile, q: Profile)
    requires Progressed(p, q)
    ensures Includes(Unlocked(q), Unlocked(p))
  {
    CountFeatureMonotone(p.usageHistory, q.usageHistory, "Roteiro");
    CountFeatureMonotone(p.usageHistory, q.usageHistory, "Ideia");
  }

  /** Every ledger operation moves a profile forward in that sense, the spend
      both as corrected and as written. */
  lemma LedgerOperationsProgress(p: Profile, amount: int, feature: string, date: string)
    requires CanLevel(p)
    ensures Progressed(p, EarnCoins(Some(p), amount).value)
    ensures Progressed(p, GainExperience(p, amount))
    ensures var r := SpendIntended(Some(p), amount, feature, date); r.ok ==> Progressed(p, r.user.value)
    ensures var r := SpendAsWritten(Some(p), amount, feature, date); r.ok ==> Progressed(p, r.user.value)
  {
  }

  // ---------------------------------------------------------------------------
  // History tab
  // ---------------------------------------------------------------------------

  /** Newest first, by the time each entry's date denotes. */
  predicate SortedNewestFirst(s: seq<UsageEvent>, time: string -> int) {
    forall i, j :: 0 <= i < j < |s| ==> time(s[i].date) >= time(s[j].date)
  }

  /** No entry of `s` is newer than `t`. */
  predicate NoneNewerThan(s: seq<UsageEvent>, t: int, time: string -> int) {
    forall i :: 0 <= i < |s| ==> time(s[i].date) <= t
  }

  lemma PrependKeepsSorted(x: UsageEvent, s: seq<UsageEvent>, time: string -> int)
    requires SortedNewestFirst(s, time) && NoneNewerThan(s, time(x.date), time)
    ensures SortedNewestFirst([x] + s, time)
  {
    forall i, j | 0 <= i < j < |[x] + s|
      ensures time(([x] + s)[i].date) >= time(([x] + s)[j].date)
    {
      if i > 0 {
        assert ([x] + s)[i] == s[i - 1];
      }
      assert ([x] + s)[j] == s[j - 1];
    }
  }

  function InsertNewestFirst(e: UsageEvent, s: seq<UsageEvent>, time: string -> int): (r: seq<UsageEvent>)
    requires SortedNewestFirst(s, time)
    ensures SortedNewestFirst(r, time)
    ensures multiset(r) == multiset(s) + multiset{e}
    ensures forall t :: NoneNewerThan(s, t, time) && time(e.date) <= t ==> NoneNewerThan(r, t, time)
    decreases |s|
  {
    if |s| == 0 || time(s[0].date) <= time(e.date) then
      PrependKeepsSorted(e, s, time);
      [e] + s
    else
      SortedTail(s, time);
      var rest := InsertNewestFirst(e, s[1..], time);
      PrependKeepsSorted(s[0], rest, time);
      PrependKeepsBound(s, e, rest, time);
      [s[0]] + rest
  }

  /** The tail of a sorted history is sorted, and the head is its newest. */
  lemma SortedTail(s: seq<UsageEvent>, time: string -> int)
    requires |s| > 0 && SortedNewestFirst(s, time)
    ensures SortedNewestFirst(s[1..], time) && NoneNewerThan(s[1..], time(s[0].date), time)
    ensures multiset(s) == multiset{s[0]} + multiset(s[1..])
  {
    assert s == [s[0]] + s[1..];
  }

  lemma PrependKeepsBound(s: seq<UsageEvent>, e: UsageEvent, rest: seq<UsageEvent>, time: string -> int)
    requires |s| > 0
    requires forall t :: NoneNewerThan(s[1..], t, time) && time(e.date) <= t ==> NoneNewerThan(rest, t, time)
    ensures forall t :: NoneNewerThan(s, t, time) && time(e.date) <= t ==> NoneNewerThan([s[0]] + rest, t, time)
  {
    forall t | NoneNewerThan(s, t, time) && time(e.date) <= t
      ensures NoneNewerThan([s[0]] + rest, t, time)
    {
      assert NoneNewerThan(s[1..], t, time) by {
        forall i | 0 <= i < |s[1..]| ensures time(s[1..][i].date) <= t {
          assert s[1..][i] == s[i + 1];
        }
      }
      forall i | 0 <= i < |[s[0]] + rest| ensures time(([s[0]] + rest)[i].date) <= t {
        if i > 0 {
          assert ([s[0]] + rest)[i] == rest[i - 1];
        }
      }
    }
  }

  /** The history tab's view: a sorted copy of the history, newest first,
      holding exactly the same entries. The stored history is left as it is:
      the view is a separate value. `time` stands for the date parsing the
      page performs. */
  function HistoryView(h: seq<UsageEvent>, time: string -> int): (r: seq<UsageEvent>)
    ensures SortedNewestFirst(r, time)
    ensures multiset(r) == multiset(h)
    ensures |r| == |h|
    decreases |h|
  {
    if |h| == 0 then []
    else
      HeadTail(h);
      InsertNewestFirst(h[0], HistoryView(h[1..], time), time)
  }

  lemma HeadTail<T>(q: seq<T>)
    requires |q| > 0
    ensures q == [q[0]] + q[1..] && multiset(q) == multiset{q[0]} + multiset(q[1..])
  {
  }

  // ---------------------------------------------------------------------------
  // Name editor and purchases
  // ---------------------------------------------------------------------------

  datatype EditResult = NameRejected | EditingClosed

  /** `handleSaveProfile`: a name made only of whitespace is refused; any
      other closes the editor. The profile itself is never written. */
  function SaveProfile(user: Session, editedName: string): (r: (EditResult, Session))
    ensures r.0 == NameRejected <==> AllWhitespace(editedName)
    ensures r.1 == user
  {
    if Trim(editedName) == "" then (NameRejected, user) else (EditingClosed, user)
  }

  /** The packages the purchase dialog offers, and its initial selection. */
  const CoinPackages: seq<int> := [100, 500, 1000, 5000]
  const InitialSelection: int := 100

  /** `handlePurchaseCoins`: credits exactly the selected package through
      `earnCoins`, leaving level, experience and history alone. */
  function PurchaseCoins(user: Session, selected: int): (r: Session)
    ensures user.None? ==> r.None?
    ensures user.Some? ==> r.Some? && r.value == user.value.(tubecoins := user.value.tubecoins + selected)
  {
    EarnCoins(user, selected)
  }

  /** The initial selection is one of the packages, and every package is a
      positive amount, so a purchase never lowers the balance. */
  lemma PurchaseNeverLowersBalance(user: Session, selected: int)
    requires selected in CoinPackages && user.Some?
    ensures InitialSelection in CoinPackages
    ensures PurchaseCoins(user, selected).value.tubecoins > user.value.tubecoins
  {
  }
}
