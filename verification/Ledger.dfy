/** The double-entry primitive `post_transaction` as a function on the ledger and
    its cached wallets, and what every run of it keeps.
 */
module Ledger {
  import opened Schema

  datatype Txn = Txn(key: Key, amount: int, legs: seq<Leg>)
  datatype Bank = Bank(ledger: seq<Txn>, wallets: seq<Wallet>)

  datatype PostResult =
    | Posted(bank: Bank, id: nat, replayed: bool)
    | Failed(error: Error)

  /** Which legs a sum ranges over. */
  datatype Selector = AllLegs | OnAccount(account: Account) | OnWallet(wallet: nat)

  // ── Sums over legs and transactions ──────────────────────────────────────

  function Weight(leg: Leg, sel: Selector): int {
    match sel
    case AllLegs => leg.delta
    case OnAccount(a) => if leg.account == a then leg.delta else 0
    case OnWallet(w) => if leg.wallet == Some(w) then leg.delta else 0
  }

  function LegSum(legs: seq<Leg>, sel: Selector): int {
    if |legs| == 0 then 0
    else LegSum(legs[..|legs| - 1], sel) + Weight(legs[|legs| - 1], sel)
  }

  /** What the whole ledger moved on a selector. */
  function Flow(ledger: seq<Txn>, sel: Selector): int {
    if |ledger| == 0 then 0
    else Flow(ledger[..|ledger| - 1], sel) + LegSum(ledger[|ledger| - 1].legs, sel)
  }

  /** What the transactions of one item moved on a selector. */
  function ItemFlow(ledger: seq<Txn>, item: Item, sel: Selector): int {
    if |ledger| == 0 then 0
    else
      var last := ledger[|ledger| - 1];
      ItemFlow(ledger[..|ledger| - 1], item, sel)
      + if Owner(last.key) == item then LegSum(last.legs, sel) else 0
  }

  predicate HasKey(ledger: seq<Txn>, key: Key) {
    exists i :: 0 <= i < |ledger| && ledger[i].key == key
  }

  /** The id of the transaction holding a key: the idempotency lookup. */
  function FindKey(ledger: seq<Txn>, key: Key): (found: Option<nat>)
    ensures found.Some? ==> found.value < |ledger| && ledger[found.value].key == key
    ensures found.None? <==> !HasKey(ledger, key)
  {
    if |ledger| == 0 then None
    else
      var rest := FindKey(ledger[..|ledger| - 1], key);
      if rest.Some? then rest
      else if ledger[|ledger| - 1].key == key then Some(|ledger| - 1)
      else
        assert forall i :: 0 <= i < |ledger| - 1 ==> ledger[i] == ledger[..|ledger| - 1][i];
        None
  }

  // ── Moving the cached wallets ────────────────────────────────────────────

  function Min(a: int, b: int): int { if a < b then a else b }
  function Max(a: int, b: int): int { if a < b then b else a }

  /** One wallet UPDATE; None is the table CHECK firing. */
  function MoveWallet(w: Wallet, leg: Leg): Option<Wallet> {
    var balance := w.balance + leg.delta;
    if balance < 0 then None
    else Some(Wallet(balance, Max(0, Min(w.bonus + leg.bonusDelta, balance))))
  }

  function ApplyLeg(wallets: seq<Wallet>, leg: Leg): Option<seq<Wallet>> {
    if leg.wallet.None? || leg.wallet.value >= |wallets| then Some(wallets)
    else
      var w := leg.wallet.value;
      match MoveWallet(wallets[w], leg)
      case None => None
      case Some(moved) => Some(wallets[w := moved])
  }

  /** Legs are applied in order and every step must pass the CHECKs. */
  function ApplyLegs(wallets: seq<Wallet>, legs: seq<Leg>): (r: Option<seq<Wallet>>)
    ensures r.Some? ==> |r.value| == |wallets|
  {
    if |legs| == 0 then Some(wallets)
    else
      match ApplyLegs(wallets, legs[..|legs| - 1])
      case None => None
      case Some(ws) => ApplyLeg(ws, legs[|legs| - 1])
  }

  predicate WalletsExist(wallets: seq<Wallet>, legs: seq<Leg>) {
    forall i :: 0 <= i < |legs| && legs[i].wallet.Some? ==> legs[i].wallet.value < |wallets|
  }

  /** The checks made before the idempotency lookup. */
  function Validate(t: Txn): Option<Error> {
    if |t.legs| < 2 then Some(BadLegs)
    else if LegSum(t.legs, AllLegs) != 0 then Some(Unbalanced)
    else if t.amount <= 0 then Some(BadAmount)
    else None
  }

  function Post(bank: Bank, t: Txn): (r: PostResult)
    ensures r.Posted? ==> bank.ledger <= r.bank.ledger && |r.bank.wallets| == |bank.wallets|
    ensures r.Posted? ==> r.id < |r.bank.ledger| && r.bank.ledger[r.id].key == t.key
  {
    if Validate(t).Some? then Failed(Validate(t).value)
    else
      match FindKey(bank.ledger, t.key)
      case Some(id) => Posted(bank, id, true)
      case None =>
        if !WalletsExist(bank.wallets, t.legs) then Failed(WalletNotFound)
        else
          match ApplyLegs(bank.wallets, t.legs)
          case None => Failed(CheckViolation)
          case Some(ws) => Posted(Bank(bank.ledger + [t], ws), |bank.ledger|, false)
  }

  // ── The invariant of the money core ──────────────────────────────────────

  predicate WalletOk(ledger: seq<Txn>, wallets: seq<Wallet>, w: nat)
    requires w < |wallets|
  {
    && wallets[w].balance == Flow(ledger, OnWallet(w))
    && 0 <= wallets[w].bonus <= wallets[w].balance
  }

  predicate TxnOk(t: Txn, walletCount: nat) {
    && Validate(t).None?
    && forall i :: 0 <= i < |t.legs| && t.legs[i].wallet.Some? ==> t.legs[i].wallet.value < walletCount
  }

  predicate UniqueKeys(ledger: seq<Txn>) {
    forall i, j :: 0 <= i < j < |ledger| ==> ledger[i].key != ledger[j].key
  }

  predicate BankOk(bank: Bank) {
    && (forall w :: 0 <= w < |bank.wallets| ==> WalletOk(bank.ledger, bank.wallets, w))
    && (forall i :: 0 <= i < |bank.ledger| ==> TxnOk(bank.ledger[i], |bank.wallets|))
    && UniqueKeys(bank.ledger)
  }

  // ── Appending one transaction ────────────────────────────────────────────

  lemma FlowAppend(ledger: seq<Txn>, t: Txn, sel: Selector)
    ensures Flow(ledger + [t], sel) == Flow(ledger, sel) + LegSum(t.legs, sel)
  {
    assert (ledger + [t])[..|ledger|] == ledger;
  }

  lemma ItemFlowAppend(ledger: seq<Txn>, t: Txn, item: Item, sel: Selector)
    ensures ItemFlow(ledger + [t], item, sel)
         == ItemFlow(ledger, item, sel) + if Owner(t.key) == item then LegSum(t.legs, sel) else 0
  {
    assert (ledger + [t])[..|ledger|] == ledger;
  }

  lemma HasKeyAppend(ledger: seq<Txn>, t: Txn, key: Key)
    ensures HasKey(ledger + [t], key) <==> HasKey(ledger, key) || key == t.key
  {
    var more := ledger + [t];
    if HasKey(ledger, key) {
      var i :| 0 <= i < |ledger| && ledger[i].key == key;
      assert more[i].key == key;
    }
    assert more[|ledger|] == t;
  }

  /** A wallet ends at its old balance plus its legs, with the bonus in bounds. */
  lemma {:induction false} ApplyLegsMovesBySum(wallets: seq<Wallet>, legs: seq<Leg>, w: nat)
    requires w < |wallets| && ApplyLegs(wallets, legs).Some?
    requires 0 <= wallets[w].bonus <= wallets[w].balance
    ensures var ws := ApplyLegs(wallets, legs).value;
      && |ws| == |wallets|
      && ws[w].balance == wallets[w].balance + LegSum(legs, OnWallet(w))
      && 0 <= ws[w].bonus <= ws[w].balance
  {
    if |legs| > 0 {
      ApplyLegsMovesBySum(wallets, legs[..|legs| - 1], w);
    }
  }

  /** The CHECKs abort a request exactly when some prefix of its legs drives some
      wallet below zero, even if the legs as a whole would not. */
  lemma {:induction false} AbortsIffSomePrefixOverdraws(wallets: seq<Wallet>, legs: seq<Leg>)
    requires WalletsExist(wallets, legs)
    requires forall w :: 0 <= w < |wallets| ==> 0 <= wallets[w].bonus <= wallets[w].balance
    ensures ApplyLegs(wallets, legs).None? <==>
            exists n, w :: 0 <= n <= |legs| && 0 <= w < |wallets| && Overdraws(wallets, legs, n, w)
  {
    if |legs| == 0 {
      assert forall w :: 0 <= w < |wallets| ==> !Overdraws(wallets, legs, 0, w);
    } else {
      var init := legs[..|legs| - 1];
      AbortsIffSomePrefixOverdraws(wallets, init);
      assert forall n :: 0 <= n <= |init| ==> legs[..n] == init[..n];
      assert forall n, w :: 0 <= n <= |init| && 0 <= w < |wallets| ==>
               (Overdraws(wallets, legs, n, w) <==> Overdraws(wallets, init, n, w));
      if ApplyLegs(wallets, init).Some? {
        LastLegAborts(wallets, legs);
      }
    }
  }

  // ── What a request does to each wallet ───────────────────────────────────

  predicate InBounds(w: Wallet) { 0 <= w.bonus <= w.balance }

  predicate AllInBounds(wallets: seq<Wallet>) { forall w :: 0 <= w < |wallets| ==> InBounds(wallets[w]) }

  /** A wallet moved by one leg: the balance by its amount, the bonus by its bonus
      part, cut off at nothing and at the new balance. */
  predicate MovedBy(x: Wallet, y: Wallet, delta: int, bonusDelta: int) {
    var bonus := x.bonus + bonusDelta;
    && y.balance == x.balance + delta >= 0
    && (bonus < 0 ==> y.bonus == 0)
    && (0 <= bonus <= y.balance ==> y.bonus == bonus)
    && (bonus > y.balance ==> y.bonus == y.balance)
  }

  predicate NamesWallet(leg: Leg, w: nat) { leg.wallet == Some(w) }

  /** Wallets no leg names stay as they are; a wallet one leg names moves by it. */
  predicate WalletsMove(before: seq<Wallet>, legs: seq<Leg>, after: seq<Wallet>) {
    && |after| == |before|
    && (forall w :: 0 <= w < |before| && (forall k :: 0 <= k < |legs| ==> !NamesWallet(legs[k], w)) ==> after[w] == before[w])
    && (forall w, k :: 0 <= w < |before| && 0 <= k < |legs| && OnlyLegOf(legs, k, w) ==>
          MovedBy(before[w], after[w], legs[k].delta, legs[k].bonusDelta))
  }

  predicate OnlyLegOf(legs: seq<Leg>, k: nat, w: nat)
    requires k < |legs|
  {
    NamesWallet(legs[k], w) && forall j :: 0 <= j < |legs| && j != k ==> !NamesWallet(legs[j], w)
  }

  lemma {:induction false} UnnamedWalletStays(wallets: seq<Wallet>, legs: seq<Leg>, w: nat)
    requires w < |wallets| && ApplyLegs(wallets, legs).Some?
    requires forall k :: 0 <= k < |legs| ==> !NamesWallet(legs[k], w)
    ensures ApplyLegs(wallets, legs).value[w] == wallets[w]
  {
    if |legs| > 0 {
      var init := legs[..|legs| - 1];
      assert !NamesWallet(legs[|legs| - 1], w);
      assert forall k :: 0 <= k < |init| ==> init[k] == legs[k];
      UnnamedWalletStays(wallets, init, w);
    }
  }

  lemma {:induction false} OneLegMovesWallet(wallets: seq<Wallet>, legs: seq<Leg>, k: nat, w: nat)
    requires w < |wallets| && InBounds(wallets[w]) && ApplyLegs(wallets, legs).Some?
    requires k < |legs| && OnlyLegOf(legs, k, w)
    ensures MovedBy(wallets[w], ApplyLegs(wallets, legs).value[w], legs[k].delta, legs[k].bonusDelta)
  {
    var init := legs[..|legs| - 1];
    assert forall j :: 0 <= j < |init| ==> init[j] == legs[j];
    if k < |init| {
      assert !NamesWallet(legs[|legs| - 1], w);
      OneLegMovesWallet(wallets, init, k, w);
    } else {
      UnnamedWalletStays(wallets, init, w);
    }
  }

  lemma LegsMoveWallets(wallets: seq<Wallet>, legs: seq<Leg>)
    requires AllInBounds(wallets) && ApplyLegs(wallets, legs).Some?
    ensures WalletsMove(wallets, legs, ApplyLegs(wallets, legs).value)
  {
    var after := ApplyLegs(wallets, legs).value;
    forall w | 0 <= w < |wallets| && (forall k :: 0 <= k < |legs| ==> !NamesWallet(legs[k], w)) ensures after[w] == wallets[w] {
      UnnamedWalletStays(wallets, legs, w);
    }
    forall w, k | 0 <= w < |wallets| && 0 <= k < |legs| && OnlyLegOf(legs, k, w)
      ensures MovedBy(wallets[w], after[w], legs[k].delta, legs[k].bonusDelta)
    {
      assert InBounds(wallets[w]);
      OneLegMovesWallet(wallets, legs, k, w);
    }
  }

  /** A first post moves exactly the wallets its legs name, by what they say; a repeat
      moves none. */
  lemma PostMovesWallets(bank: Bank, t: Txn)
    requires BankOk(bank) && Post(bank, t).Posted?
    ensures var after := Post(bank, t).bank.wallets;
      if HasKey(bank.ledger, t.key) then after == bank.wallets else WalletsMove(bank.wallets, t.legs, after)
  {
    forall w | 0 <= w < |bank.wallets| ensures InBounds(bank.wallets[w]) {
      assert WalletOk(bank.ledger, bank.wallets, w);
    }
    if !HasKey(bank.ledger, t.key) { LegsMoveWallets(bank.wallets, t.legs); }
  }

  /** A request is accepted exactly when it is well-formed and its key is spent or its
      wallets exist and no prefix of its legs overdraws one. */
  lemma PostsIff(bank: Bank, t: Txn)
    requires BankOk(bank)
    ensures Post(bank, t).Posted? <==>
      && |t.legs| >= 2 && LegSum(t.legs, AllLegs) == 0 && t.amount > 0
      && (HasKey(bank.ledger, t.key)
          || (&& WalletsExist(bank.wallets, t.legs)
              && !exists n, w :: 0 <= n <= |t.legs| && 0 <= w < |bank.wallets| && Overdraws(bank.wallets, t.legs, n, w)))
    ensures Post(bank, t).Failed? ==>
      match Post(bank, t).error
      case BadLegs => |t.legs| < 2
      case Unbalanced => |t.legs| >= 2 && LegSum(t.legs, AllLegs) != 0
      case BadAmount => t.amount <= 0
      case WalletNotFound => !WalletsExist(bank.wallets, t.legs)
      case CheckViolation => exists n, w :: 0 <= n <= |t.legs| && 0 <= w < |bank.wallets| && Overdraws(bank.wallets, t.legs, n, w)
      case _ => false
  {
    forall w | 0 <= w < |bank.wallets| ensures InBounds(bank.wallets[w]) {
      assert WalletOk(bank.ledger, bank.wallets, w);
    }
    if WalletsExist(bank.wallets, t.legs) { AbortsIffSomePrefixOverdraws(bank.wallets, t.legs); }
  }

  predicate Overdraws(wallets: seq<Wallet>, legs: seq<Leg>, n: nat, w: nat)
    requires n <= |legs| && w < |wallets|
  {
    wallets[w].balance + LegSum(legs[..n], OnWallet(w)) < 0
  }

  lemma LastLegAborts(wallets: seq<Wallet>, legs: seq<Leg>)
    requires |legs| > 0 && WalletsExist(wallets, legs)
    requires forall w :: 0 <= w < |wallets| ==> 0 <= wallets[w].bonus <= wallets[w].balance
    requires ApplyLegs(wallets, legs[..|legs| - 1]).Some?
    ensures ApplyLegs(wallets, legs).None? <==>
            exists w :: 0 <= w < |wallets| && Overdraws(wallets, legs, |legs|, w)
  {
    var init, last := legs[..|legs| - 1], legs[|legs| - 1];
    var ws := ApplyLegs(wallets, init).value;
    assert legs[..|legs|] == legs;
    forall w | 0 <= w < |wallets|
      ensures Overdraws(wallets, legs, |legs|, w) <==> last.wallet == Some(w) && ws[w].balance + last.delta < 0
    {
      ApplyLegsMovesBySum(wallets, init, w);
    }
    if ApplyLegs(wallets, legs).None? {
      assert Overdraws(wallets, legs, |legs|, last.wallet.value);
    }
  }

  /** Everything a fresh post changes: one transaction more, its owner's flows
      moved by its legs, every other item's flows as they were. */
  lemma FreshPost(bank: Bank, t: Txn)
    requires Post(bank, t).Posted? && !HasKey(bank.ledger, t.key)
    ensures var next := Post(bank, t).bank;
      && Post(bank, t) == Posted(next, |bank.ledger|, false)
      && next.ledger == bank.ledger + [t]
      && |next.wallets| == |bank.wallets|
      && (forall sel :: Flow(next.ledger, sel) == Flow(bank.ledger, sel) + LegSum(t.legs, sel))
      && (forall item, sel :: ItemFlow(next.ledger, item, sel)
            == ItemFlow(bank.ledger, item, sel) + if Owner(t.key) == item then LegSum(t.legs, sel) else 0)
      && (forall key :: HasKey(next.ledger, key) <==> HasKey(bank.ledger, key) || key == t.key)
  {
    forall sel { FlowAppend(bank.ledger, t, sel); }
    forall item, sel { ItemFlowAppend(bank.ledger, t, item, sel); }
    forall key { HasKeyAppend(bank.ledger, t, key); }
  }

  /** Every post, fresh, replayed or failed, keeps the cache equal to the ledger
      sum, the bonus within the balance, every transaction balanced and keys
      unique. */
  lemma PostKeepsBank(bank: Bank, t: Txn)
    requires BankOk(bank) && Post(bank, t).Posted?
    ensures BankOk(Post(bank, t).bank)
    ensures bank.ledger <= Post(bank, t).bank.ledger
    ensures HasKey(Post(bank, t).bank.ledger, t.key)
  {
    if FindKey(bank.ledger, t.key).None? {
      FreshPost(bank, t);
      var next := Post(bank, t).bank;
      forall w | 0 <= w < |next.wallets| ensures WalletOk(next.ledger, next.wallets, w) {
        assert WalletOk(bank.ledger, bank.wallets, w);
        ApplyLegsMovesBySum(bank.wallets, t.legs, w);
      }
      assert UniqueKeys(next.ledger) by {
        forall i, j | 0 <= i < j < |next.ledger| ensures next.ledger[i].key != next.ledger[j].key {
          if j == |bank.ledger| { assert next.ledger[i] == bank.ledger[i]; }
        }
      }
    }
  }

  /** The whole ledger sums to zero. */
  lemma {:induction false} LedgerSumsToZero(ledger: seq<Txn>)
    requires forall i :: 0 <= i < |ledger| ==> LegSum(ledger[i].legs, AllLegs) == 0
    ensures Flow(ledger, AllLegs) == 0
  {
    if |ledger| > 0 {
      LedgerSumsToZero(ledger[..|ledger| - 1]);
    }
  }

  // ── Runs of posts ────────────────────────────────────────────────────────

  function Next(bank: Bank, t: Txn): Bank {
    match Post(bank, t)
    case Posted(b, _, _) => b
    case Failed(_) => bank
  }

  function RunPosts(bank: Bank, ts: seq<Txn>): Bank
    decreases |ts|
  {
    if |ts| == 0 then bank else RunPosts(Next(bank, ts[0]), ts[1..])
  }

  /** The transaction ids a run returns; None for a post that raised. */
  function RunIds(bank: Bank, ts: seq<Txn>): (ids: seq<Option<nat>>)
    ensures |ids| == |ts|
    decreases |ts|
  {
    if |ts| == 0 then []
    else
      var id := match Post(bank, ts[0]) case Posted(_, i, _) => Some(i) case Failed(_) => None;
      [id] + RunIds(Next(bank, ts[0]), ts[1..])
  }

  /** Over any run: the cache equals the ledger, the bonus stays in bounds and the
      ledger sums to zero. */
  lemma {:induction false} RunKeepsBank(bank: Bank, ts: seq<Txn>)
    requires BankOk(bank)
    ensures BankOk(RunPosts(bank, ts))
    ensures Flow(RunPosts(bank, ts).ledger, AllLegs) == 0
    ensures bank.ledger <= RunPosts(bank, ts).ledger
    decreases |ts|
  {
    if |ts| == 0 {
      assert forall i :: 0 <= i < |bank.ledger| ==> TxnOk(bank.ledger[i], |bank.wallets|);
      LedgerSumsToZero(bank.ledger);
    } else {
      if Post(bank, ts[0]).Posted? { PostKeepsBank(bank, ts[0]); }
      RunKeepsBank(Next(bank, ts[0]), ts[1..]);
    }
  }

  /** The id under which a key was first posted never changes. */
  lemma {:induction false} KeyIsStable(ledger: seq<Txn>, more: seq<Txn>, key: Key)
    requires ledger <= more && HasKey(ledger, key)
    ensures FindKey(more, key) == FindKey(ledger, key)
    decreases |more|
  {
    if |more| > |ledger| {
      assert ledger <= more[..|more| - 1];
      KeyIsStable(ledger, more[..|more| - 1], key);
    } else {
      assert more == ledger;
    }
  }

  lemma {:induction false} RunSplits(bank: Bank, xs: seq<Txn>, ys: seq<Txn>)
    ensures RunPosts(bank, xs + ys) == RunPosts(RunPosts(bank, xs), ys)
    ensures RunIds(bank, xs + ys) == RunIds(bank, xs) + RunIds(RunPosts(bank, xs), ys)
    decreases |xs|
  {
    if |xs| == 0 {
      assert xs + ys == ys;
    } else {
      assert (xs + ys)[1..] == xs[1..] + ys;
      RunSplits(Next(bank, xs[0]), xs[1..], ys);
    }
  }

  /** Replay insensitivity: once a key has been posted, repeating it anywhere later
      in the run, with any valid legs and amount, changes no later state and no
      other returned id, and the repeat itself returns the original id. */
  lemma ReplayChangesNothing(bank: Bank, before: seq<Txn>, repeat: Txn, after: seq<Txn>)
    requires BankOk(bank)
    requires HasKey(RunPosts(bank, before).ledger, repeat.key)
    requires Validate(repeat).None?
    ensures RunPosts(bank, before + [repeat] + after) == RunPosts(bank, before + after)
    ensures RunIds(bank, before + [repeat] + after)
         == RunIds(bank, before) + [FindKey(RunPosts(bank, before).ledger, repeat.key)]
            + RunIds(RunPosts(bank, before), after)
    ensures RunIds(bank, before + after) == RunIds(bank, before) + RunIds(RunPosts(bank, before), after)
  {
    var mid := RunPosts(bank, before);
    RunSplits(bank, before, after);
    RunSplits(bank, before + [repeat], after);
    RunSplits(bank, before, [repeat]);
    assert [repeat][1..] == [];
    assert RunPosts(mid, [repeat]) == RunPosts(Next(mid, repeat), []) == mid;
    assert RunIds(mid, [repeat]) == [FindKey(mid.ledger, repeat.key)];
  }

  // ── Shapes the callers post ──────────────────────────────────────────────

  function Plain(account: Account, delta: int): Leg {
    Leg(None, account, delta, 0)
  }

  function WalletLeg(wallet: nat, delta: int): Leg {
    Leg(Some(wallet), WalletAccount, delta, 0)
  }

  lemma PairSum(a: Leg, b: Leg)
    ensures forall sel :: LegSum([a, b], sel) == Weight(a, sel) + Weight(b, sel)
  {
    forall sel ensures LegSum([a, b], sel) == Weight(a, sel) + Weight(b, sel) {
      assert [a, b][..1] == [a] && [a][..0] == [];
      assert LegSum([a], sel) == Weight(a, sel);
    }
  }

  /** The only wallet leg of a request. */
  predicate OnlyWalletLeg(legs: seq<Leg>, k: nat, w: nat, delta: int) {
    k < |legs| && legs[k] == WalletLeg(w, delta) && forall j :: 0 <= j < |legs| && j != k ==> legs[j].wallet.None?
  }

  /** A wallet after money came in or went out that is not promotional: what is left of
      the bonus is at most what is left of the balance. */
  function AfterMove(w: Wallet, delta: int): Wallet {
    Wallet(w.balance + delta, Min(w.bonus, w.balance + delta))
  }

  /** A first post with one plain wallet leg changes that wallet and no other. */
  lemma OneWalletPost(bank: Bank, t: Txn, k: nat, w: nat, delta: int)
    requires BankOk(bank) && Post(bank, t).Posted? && !HasKey(bank.ledger, t.key) && OnlyWalletLeg(t.legs, k, w, delta)
    ensures w < |bank.wallets| && Post(bank, t).bank.wallets == bank.wallets[w := AfterMove(bank.wallets[w], delta)]
  {
    PostMovesWallets(bank, t);
    var after := Post(bank, t).bank.wallets;
    assert WalletOk(bank.ledger, bank.wallets, w);
    assert OnlyLegOf(t.legs, k, w);
    assert MovedBy(bank.wallets[w], after[w], delta, 0);
    forall v | 0 <= v < |after| && v != w ensures after[v] == bank.wallets[v] {
      assert forall j :: 0 <= j < |t.legs| ==> !NamesWallet(t.legs[j], v);
    }
  }

  lemma {:induction false} OneWalletSum(legs: seq<Leg>, k: nat, w: nat, delta: int)
    requires OnlyWalletLeg(legs, k, w, delta)
    ensures LegSum(legs, OnWallet(w)) == delta
  {
    var init := legs[..|legs| - 1];
    if k < |init| { OneWalletSum(init, k, w, delta); } else { NoWalletSum(init, w); }
  }

  lemma {:induction false} NoWalletSum(legs: seq<Leg>, w: nat)
    requires forall j :: 0 <= j < |legs| ==> legs[j].wallet.None?
    ensures LegSum(legs, OnWallet(w)) == 0
  {
    if |legs| > 0 { NoWalletSum(legs[..|legs| - 1], w); }
  }

  lemma TripleSum(a: Leg, b: Leg, c: Leg)
    ensures forall sel :: LegSum([a, b, c], sel) == Weight(a, sel) + Weight(b, sel) + Weight(c, sel)
  {
    forall sel ensures LegSum([a, b, c], sel) == Weight(a, sel) + Weight(b, sel) + Weight(c, sel) {
      PairSum(a, b);
      assert [a, b, c][..2] == [a, b];
    }
  }
}
