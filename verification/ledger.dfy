/** The Tubecoin ledger of the authentication context: the signed-in profile,
    spending and earning coins, and the experience/level progression that
    spending drives. Every operation is a pure function from the current
    session (the profile, or none when signed out) to the next one; the
    writes to browser storage and the toasts are left out. */
module Ledger {
  import opened Wrappers

  datatype Plan = Free | Pro | Business

  /** One entry of the usage history: when, which feature, how many coins. */
  datatype UsageEvent = UsageEvent(date: string, feature: string, coinsSpent: int)

  datatype Profile = Profile(
    id: int,
    name: string,
    email: string,
    plan: Plan,
    tubecoins: int,
    level: int,
    experience: int,
    experienceToNextLevel: int,
    usageHistory: seq<UsageEvent>)

  /** The signed-in user, or none when nobody is signed in. */
  type Session = Option<Profile>

  // ---------------------------------------------------------------------------
  // Level thresholds
  // ---------------------------------------------------------------------------

  function Pow(b: nat, e: nat): (r: nat)
    ensures b > 0 ==> r > 0
  {
    if e == 0 then 1 else b * Pow(b, e - 1)
  }

  /** Experience needed to leave `level`: floor(100 * 1.5^(level - 1)),
      computed exactly as 100 * 3^(level-1) / 2^(level-1). Levels below 1 never
      occur; for them the same quantity is 100 * 2^(1-level) / 3^(1-level). */
  function ExperienceForLevel(level: int): (r: int)
    ensures level >= 1 ==>
      r * Pow(2, level - 1) <= 100 * Pow(3, level - 1) < (r + 1) * Pow(2, level - 1)
  {
    if level >= 1 then (100 * Pow(3, level - 1)) / Pow(2, level - 1)
    else (100 * Pow(2, 1 - level)) / Pow(3, 1 - level)
  }

  lemma DivAtLeast(x: int, y: int, k: int)
    requires y > 0 && x >= y * k
    ensures x / y >= k
  {
    var q, m := x / y, x % y;
    assert x == y * q + m && 0 <= m < y;
    assert y * (k - 1) == y * k - y;
    if q < k {
      MulMonotone(y, q, k - 1);
    }
  }

  lemma MulMonotone(b: int, x: int, y: int)
    requires b >= 0 && x <= y
    ensures b * x <= b * y
  {
    assert b * y - b * x == b * (y - x);
  }

  /** The growth step behind the thresholds: with q = a / b, the quotient
      3a / 2b is at least q plus half of q. */
  lemma GrowthStep(a: int, b: int)
    requires a >= 0 && b > 0
    ensures (3 * a) / (2 * b) >= a / b + (a / b) / 2
  {
    var q := a / b;
    var h := (3 * q) / 2;
    assert h == q + q / 2;
    assert a >= b * q;
    MulMonotone(b, 2 * h, 3 * q);
    assert b * (3 * q) == 3 * (b * q);
    assert (2 * b) * h == b * (2 * h);
    DivAtLeast(3 * a, 2 * b, h);
  }

  /** Each level's threshold is at least one and a half times the previous one
      (rounded down). */
  lemma ThresholdStep(level: int)
    requires level >= 1
    ensures ExperienceForLevel(level + 1) >= ExperienceForLevel(level) + ExperienceForLevel(level) / 2
  {
    var p3 := Pow(3, level - 1);
    var b := Pow(2, level - 1);
    var a := 100 * p3;
    assert Pow(3, level) == 3 * p3;
    assert Pow(2, level) == 2 * b;
    assert 100 * (3 * p3) == 3 * a;
    GrowthStep(a, b);
  }

  /** Every real level needs at least 100 experience, and the threshold grows
      strictly with the level. */
  lemma {:induction false} ThresholdIncreasing(i: int, j: int)
    requires 1 <= i < j
    ensures 100 <= ExperienceForLevel(i) < ExperienceForLevel(j)
    decreases j - i
  {
    ThresholdStep(j - 1);
    if i == j - 1 {
      ThresholdAtLeast100(i);
    } else {
      ThresholdIncreasing(i, j - 1);
    }
  }

  lemma {:induction false} ThresholdAtLeast100(level: int)
    requires level >= 1
    ensures ExperienceForLevel(level) >= 100
    decreases level
  {
    if level > 1 {
      ThresholdAtLeast100(level - 1);
      ThresholdStep(level - 1);
    }
  }

  // ---------------------------------------------------------------------------
  // The profile's invariant
  // ---------------------------------------------------------------------------

  /** The state every ledger operation starts from and keeps: a real level,
      its threshold, experience below that threshold, a non-negative balance. */
  predicate Valid(p: Profile) {
    && p.level >= 1
    && p.experienceToNextLevel == ExperienceForLevel(p.level)
    && 0 <= p.experience < p.experienceToNextLevel
    && p.tubecoins >= 0
  }

  /** What the level-up loop needs in order to stop: a real level and a
      positive threshold. */
  predicate CanLevel(p: Profile) {
    p.level >= 1 && p.experienceToNextLevel > 0
  }

  /** The fields no ledger operation touches. */
  predicate SameAccount(p: Profile, q: Profile) {
    p.id == q.id && p.name == q.name && p.email == q.email && p.plan == q.plan
  }

  // ---------------------------------------------------------------------------
  // Experience
  // ---------------------------------------------------------------------------

  /** Coins granted when climbing from level `lo` to level `hi`: 10 times each
      level reached. */
  function LevelBonus(lo: int, hi: int): int
    decreases hi - lo
  {
    if lo >= hi then 0 else (lo + 1) * 10 + LevelBonus(lo + 1, hi)
  }

  /** The thresholds of levels `lo` up to `hi - 1`. */
  function ThresholdSum(lo: int, hi: int): int
    decreases hi - lo
  {
    if lo >= hi then 0 else ExperienceForLevel(lo) + ThresholdSum(lo + 1, hi)
  }

  /** Experience the level-up loop took to go from `p` to `r`: the threshold
      stored in `p`, then the computed threshold of every intermediate level. */
  function Consumed(p: Profile, r: Profile): int {
    if r.level <= p.level then 0
    else p.experienceToNextLevel + ThresholdSum(p.level + 1, r.level)
  }

  /** One pass of the level-up loop. */
  function LevelUpPass(p: Profile): Profile {
    var newLevel := p.level + 1;
    p.(experience := p.experience - p.experienceToNextLevel,
       level := newLevel,
       experienceToNextLevel := ExperienceForLevel(newLevel),
       tubecoins := p.tubecoins + newLevel * 10)
  }

  /** The level-up loop: pass after pass while the experience reaches the
      threshold. It always stops below the threshold, never lowers the level,
      pays the bonus of every level reached and loses no experience. */
  function Normalize(p: Profile): (r: Profile)
    requires CanLevel(p)
    ensures CanLevel(r) && SameAccount(p, r) && r.usageHistory == p.usageHistory
    ensures r.experience < r.experienceToNextLevel
    ensures r.level >= p.level
    ensures r.level == p.level <==> p.experience < p.experienceToNextLevel
    ensures r.level == p.level ==> r == p
    ensures r.level > p.level ==> r.experienceToNextLevel == ExperienceForLevel(r.level)
    ensures r.tubecoins == p.tubecoins + LevelBonus(p.level, r.level)
    ensures p.experience == r.experience + Consumed(p, r)
    ensures p.experience >= 0 ==> r.experience >= 0
    decreases p.experience
  {
    if p.experience >= p.experienceToNextLevel then
      ThresholdAtLeast100(p.level + 1);
      Normalize(LevelUpPass(p))
    else
      p
  }

  /** `earnExperience` on a signed-in profile: add, then level up. */
  function GainExperience(p: Profile, amount: int): (r: Profile)
    requires CanLevel(p)
    ensures CanLevel(r) && SameAccount(p, r) && r.usageHistory == p.usageHistory
    ensures r.experience < r.experienceToNextLevel
    ensures r.level >= p.level
    ensures r.tubecoins == p.tubecoins + LevelBonus(p.level, r.level)
    ensures p.experience + amount == r.experience + Consumed(p, r)
    ensures p.experience + amount >= 0 ==> r.experience >= 0
  {
    Normalize(p.(experience := p.experience + amount))
  }

  /** `earnExperience`: a no-op when nobody is signed in. */
  function EarnExperience(user: Session, amount: int): (r: Session)
    requires user.Some? ==> CanLevel(user.value)
    ensures user.None? ==> r.None?
    ensures user.Some? ==> r.Some? && r.value == GainExperience(user.value, amount)
  {
    match user
    case None => None
    case Some(p) => Some(GainExperience(p, amount))
  }

  // ---------------------------------------------------------------------------
  // Coins
  // ---------------------------------------------------------------------------

  /** `earnCoins`: credits `amount` and changes no other field; a no-op when
      nobody is signed in. */
  function EarnCoins(user: Session, amount: int): (r: Session)
    ensures user.None? ==> r.None?
    ensures user.Some? ==>
      && r.Some?
      && r.value.tubecoins == user.value.tubecoins + amount
      && SameAccount(user.value, r.value)
      && r.value.level == user.value.level
      && r.value.experience == user.value.experience
      && r.value.experienceToNextLevel == user.value.experienceToNextLevel
      && r.value.usageHistory == user.value.usageHistory
  {
    match user
    case None => None
    case Some(p) => Some(p.(tubecoins := p.tubecoins + amount))
  }

  /** The debit that `spendCoins` builds: the balance drops by `amount` and one
      entry is appended to the history. */
  function Debit(p: Profile, amount: int, feature: string, date: string): (r: Profile)
    ensures r.tubecoins == p.tubecoins - amount
    ensures |r.usageHistory| == |p.usageHistory| + 1
    ensures r.usageHistory[..|p.usageHistory|] == p.usageHistory
    ensures r.usageHistory[|p.usageHistory|] == UsageEvent(date, feature, amount)
    ensures SameAccount(p, r) && r.level == p.level
    ensures r.experience == p.experience && r.experienceToNextLevel == p.experienceToNextLevel
  {
    var h := p.usageHistory + [UsageEvent(date, feature, amount)];
    assert h[..|p.usageHistory|] == p.usageHistory;
    p.(tubecoins := p.tubecoins - amount, usageHistory := h)
  }

  /** Whether `spendCoins` reported success, and the session afterwards. */
  datatype SpendResult = SpendResult(ok: bool, user: Session)

  /** `spendCoins` as it is evidently meant to behave: refuse when signed out
      or short of coins, otherwise debit, record the use and then earn half the
      amount (rounded down) as experience on the debited profile. The date is
      the caller's clock reading. */
  function SpendIntended(user: Session, amount: int, feature: string, date: string): (r: SpendResult)
    requires user.Some? ==> CanLevel(user.value)
    ensures user.None? ==> !r.ok && r.user == user
    ensures user.Some? && user.value.tubecoins < amount ==> !r.ok && r.user == user
    ensures user.Some? && user.value.tubecoins >= amount ==> r.ok && r.user.Some?
    ensures r.ok ==> r.user.Some? && user.Some? && SpendKeepsDebit(user.value, r.user.value, amount, feature, date)
    ensures r.user.Some? ==> CanLevel(r.user.value)
  {
    match user
    case None => SpendResult(false, user)
    case Some(p) =>
      if p.tubecoins < amount then SpendResult(false, user)
      else
        var d := Debit(p, amount, feature, date);
        var q := GainExperience(d, amount / 2);
        assert q.usageHistory == d.usageHistory;
        SpendResult(true, Some(q))
  }

  /** The outcome a successful spend should have on profile `p`: exactly one
      new entry at the end of the history, the balance lowered by `amount` and
      raised only by level-up bonuses, and half the amount (rounded down) added
      to the experience. */
  predicate SpendKeepsDebit(p: Profile, q: Profile, amount: int, feature: string, date: string) {
    && q.usageHistory == p.usageHistory + [UsageEvent(date, feature, amount)]
    && q.tubecoins == p.tubecoins - amount + LevelBonus(p.level, q.level)
    && q.level >= p.level
    && p.experience + amount / 2 == q.experience + Consumed(p, q)
    && SameAccount(p, q)
  }

  /** `spendCoins` as written: `earnExperience` starts again from the profile
      captured before the debit and its write comes last, so the final session
      is the pre-spend profile with the experience added. */
  function SpendAsWritten(user: Session, amount: int, feature: string, date: string): (r: SpendResult)
    requires user.Some? ==> CanLevel(user.value)
    ensures user.None? ==> !r.ok && r.user == user
    ensures user.Some? && user.value.tubecoins < amount ==> !r.ok && r.user == user
    ensures user.Some? && user.value.tubecoins >= amount ==>
      r.ok && r.user == EarnExperience(user, amount / 2)
  {
    match user
    case None => SpendResult(false, user)
    case Some(p) =>
      if p.tubecoins < amount then SpendResult(false, user)
      else
        // the debited profile is written first, then overwritten by this one
        SpendResult(true, EarnExperience(user, amount / 2))
  }

  /** As written, a successful spend of a positive amount leaves no history
      entry and no debit behind: the history is the old one and the balance is
      at least the old balance. */
  lemma SpendAsWrittenLosesDebit(p: Profile, amount: int, feature: string, date: string)
    requires CanLevel(p) && 0 < amount <= p.tubecoins
    ensures var r := SpendAsWritten(Some(p), amount, feature, date);
      && r.ok && r.user.Some?
      && r.user.value.usageHistory == p.usageHistory
      && r.user.value.tubecoins >= p.tubecoins > p.tubecoins - amount
  {
    var q := GainExperience(p, amount / 2);
    LevelBonusNonNegative(p.level, q.level);
  }

  lemma {:induction false} LevelBonusNonNegative(lo: int, hi: int)
    requires lo >= 0
    ensures LevelBonus(lo, hi) >= 0
    decreases hi - lo
  {
    if lo < hi {
      LevelBonusNonNegative(lo + 1, hi);
    }
  }

  // ---------------------------------------------------------------------------
  // Accounts
  // ---------------------------------------------------------------------------

  /** The profile `register` creates: 100 coins, level 1, no experience, an
      empty history, on the free plan. */
  function Register(id: int, name: string, email: string): (r: Profile)
    ensures Valid(r)
    ensures r.tubecoins == 100 && r.level == 1 && r.experience == 0
    ensures r.experienceToNextLevel == 100 && r.usageHistory == []
    ensures r.plan == Free && r.name == name && r.email == email
  {
    Profile(id, name, email, Free, 100, 1, 0, ExperienceForLevel(1), [])
  }

  const DemoEmail := "demo@tubepro.com"
  const DemoPassword := "password"

  /** The profile the demo login installs. */
  function DemoProfile(): (r: Profile)
    ensures Valid(r)
    ensures r.tubecoins == 500 && r.level == 3 && r.experience == 75
    ensures r.experienceToNextLevel == 225 && |r.usageHistory| == 3
  {
    Profile(1, "Usuário Demo", DemoEmail, Pro, 500, 3, 75, ExperienceForLevel(3),
      [ UsageEvent("2023-05-01T10:30:00Z", "Geração de Ideias", 10),
        UsageEvent("2023-05-02T14:45:00Z", "Escrita de Roteiro", 25),
        UsageEvent("2023-05-05T09:15:00Z", "Assistente AI", 15) ])
  }

  /** `login`: only the demo credentials are accepted. */
  function Login(email: string, password: string): (r: Result<Profile, string>)
    ensures r.Success? <==> email == DemoEmail && password == DemoPassword
    ensures r.Success? ==> r.value == DemoProfile()
  {
    if email == DemoEmail && password == DemoPassword then Success(DemoProfile())
    else Failure("Credenciais inválidas")
  }

  /** `logout`: nobody is signed in afterwards. */
  function Logout(user: Session): (r: Session)
    ensures r.None?
  {
    None
  }

  /** After `logout` nothing is earned or spent until the next login:
      a spend is refused and stays signed out, and earning coins or
      experience leaves nobody signed in. */
  lemma LogoutEndsSession(user: Session, amount: int, feature: string, date: string)
    ensures var out := Logout(user);
      && SpendIntended(out, amount, feature, date) == SpendResult(false, None)
      && EarnCoins(out, amount).None?
      && EarnExperience(out, amount).None?
  {
  }

  // ---------------------------------------------------------------------------
  // Properties relating several operations
  // ---------------------------------------------------------------------------

  /** Every ledger operation keeps a valid profile valid, for the non-negative
      amounts the callers pass: the spend both as corrected and as written. */
  lemma OperationsKeepValid(p: Profile, amount: int, feature: string, date: string)
    requires Valid(p) && amount >= 0
    ensures Valid(EarnCoins(Some(p), amount).value)
    ensures Valid(GainExperience(p, amount))
    ensures var r := SpendIntended(Some(p), amount, feature, date); r.ok ==> Valid(r.user.value)
    ensures var r := SpendAsWritten(Some(p), amount, feature, date); r.ok ==> Valid(r.user.value)
  {
    GainKeepsValid(p, amount);
    GainKeepsValid(p, amount / 2);
    if p.tubecoins >= amount {
      var d := Debit(p, amount, feature, date);
      GainKeepsValid(d, amount / 2);
    }
  }

  lemma GainKeepsValid(p: Profile, amount: int)
    requires Valid(p) && amount >= 0
    ensures Valid(GainExperience(p, amount))
  {
    var r := GainExperience(p, amount);
    LevelBonusNonNegative(p.level, r.level);
    if r.level == p.level {
      assert r == p.(experience := p.experience + amount);
    }
  }

  /** The demo account at level 3 with 75/225 experience: 150 more experience
      reaches level 4 exactly (0/337, +40 coins), and 500 more climbs two levels
      (13/506, +40 and +50 coins). */
  lemma DemoLevelUps()
    ensures var r := GainExperience(DemoProfile(), 150);
      r.level == 4 && r.experience == 0 && r.experienceToNextLevel == 337 && r.tubecoins == 540
    ensures var r := GainExperience(DemoProfile(), 500);
      r.level == 5 && r.experience == 13 && r.experienceToNextLevel == 506 && r.tubecoins == 590
  {
    assert ExperienceForLevel(4) == 337;
    assert ExperienceForLevel(5) == 506;
  }

  /** The spend defect on the demo account: spending 5 coins should leave 495
      coins and four history entries; as written it leaves 500 coins and three. */
  lemma DemoSpendDefect(feature: string, date: string)
    ensures var r := SpendIntended(Some(DemoProfile()), 5, feature, date);
      r.ok && r.user.value.tubecoins == 495 && |r.user.value.usageHistory| == 4
    ensures var r := SpendAsWritten(Some(DemoProfile()), 5, feature, date);
      r.ok && r.user.value.tubecoins == 500 && |r.user.value.usageHistory| == 3
  {
    var p := DemoProfile();
    var d := Debit(p, 5, feature, date);
    var q := GainExperience(d, 2);
    assert q.level == d.level;
    var w := GainExperience(p, 2);
    assert w.level == p.level;
  }
}
