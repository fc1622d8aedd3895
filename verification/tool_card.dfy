/** A tool card's click handler: sign-in check, an optional spend, then the
    card's own action or its link. */
module ToolCard {
  import opened Wrappers
  import opened Ledger

  /** What a click does after the checks. */
  datatype Action =
    | RedirectToLogin       // signed out: go to /login
    | Stopped               // the spend was refused
    | RunOnClick            // the card's own handler runs
    | Navigate(path: string)
    | Nothing               // neither a handler nor a link

  /** The card's optional properties, as JavaScript sees them: absent values
      are `None`. */
  datatype Card = Card(coinCost: Option<int>, feature: Option<string>, hasOnClick: bool, path: Option<string>)

  /** A spend is attempted when the cost is set and not zero and the feature
      is set and not empty: the two truthiness tests of the handler. */
  predicate Charges(c: Card) {
    c.coinCost.Some? && c.coinCost.value != 0 && c.feature.Some? && c.feature.value != ""
  }

  /** The card's own action once the checks pass: the handler wins over the
      link, and an empty link is no link. */
  function Proceed(c: Card): (a: Action)
    ensures c.hasOnClick <==> a == RunOnClick
    ensures a.Navigate? <==> !c.hasOnClick && c.path.Some? && c.path.value != ""
    ensures a.Navigate? ==> a.path == c.path.value
  {
    if c.hasOnClick then RunOnClick
    else if c.path.Some? && c.path.value != "" then Navigate(c.path.value)
    else Nothing
  }

  /** `handleClick`: signed out goes to the login page; a charging card spends
      its cost for its feature and stops if that is refused; otherwise the
      card's action follows. The second component is the session after the
      click. */
  function HandleClick(user: Session, c: Card, date: string): (r: (Action, Session))
    requires user.Some? ==> CanLevel(user.value)
    ensures user.None? ==> r == (RedirectToLogin, user)
    ensures user.Some? && !Charges(c) ==> r == (Proceed(c), user)
    ensures user.Some? && Charges(c) ==>
      var spend := SpendIntended(user, c.coinCost.value, c.feature.value, date);
      && r.1 == spend.user
      && (r.0 == Stopped <==> !spend.ok)
      && (spend.ok ==> r.0 == Proceed(c))
    ensures r.0 == Stopped ==> r.1 == user
  {
    if user.None? then (RedirectToLogin, user)
    else if Charges(c) then
      var spend := SpendIntended(user, c.coinCost.value, c.feature.value, date);
      if !spend.ok then (Stopped, spend.user) else (Proceed(c), spend.user)
    else (Proceed(c), user)
  }

  /** Nothing runs and nothing is spent without a signed-in user, and a card
      action runs after a charge only when the balance covered the cost. */
  lemma ActionOnlyAfterSpend(user: Session, c: Card, date: string)
    requires user.Some? ==> CanLevel(user.value)
    ensures var r := HandleClick(user, c, date);
      && (r.0 in {RunOnClick, Nothing} || r.0.Navigate?) ==>
        user.Some? && (Charges(c) ==> user.value.tubecoins >= c.coinCost.value)
    ensures user.Some? && Charges(c) && user.value.tubecoins < c.coinCost.value ==>
      HandleClick(user, c, date) == (Stopped, user)
  {
  }

  /** A successful charge records exactly one use of the card's feature. */
  lemma ChargeRecordsUse(p: Profile, c: Card, date: string)
    requires CanLevel(p) && Charges(c) && p.tubecoins >= c.coinCost.value
    ensures var q := HandleClick(Some(p), c, date).1;
      && q.Some?
      && q.value.usageHistory == p.usageHistory + [UsageEvent(date, c.feature.value, c.coinCost.value)]
  {
  }
}
