/** A run from deployment in which payouts cannot be kept within what was deposited. */
module Witness {
  import opened Base
  import opened Network
  import opened World
  import opened OracleAdapter
  import SYWrapper
  import PTToken
  import YTToken
  import PM = PrincipalManager
  import opened Effects
  import YL = YieldLedger
  import opened Market
  import opened History
  import opened Solvency
  import Backing

  const ALICE: Address := 10
  const ISSUER: Address := 9
  const DEPOSIT: nat := 5_000_000_000

  const MARKET: Config := Config(1, 2, 3, 4, 5, 100)

  /** A market deployed at par, with Alice its only customer. */
  const GENESIS: World := World(
    Net(50, 0, {1, 4, 5, ALICE}, ISSUER, map[ALICE := DEPOSIT], {4, 5, ALICE}, {(ALICE, 2), (ALICE, 3)}),
    Oracle(ISSUER, Some(Reading(10_000_000, 50))),
    SYWrapper.Fresh(ISSUER),
    PTToken.Fresh(),
    YTToken.Yt(YL.Genesis(10_000_000), map[]),
    Manager(ISSUER, false))

  function By(w: World, signer: Address, op: Op): World {
    Next(MARKET, w, Tx(signer, op))
  }

  const WRAPPED: World := By(GENESIS, ALICE, OnSy(Deposit(DEPOSIT)))
  const SPLIT: World := By(WRAPPED, ALICE, OnManager(Split(DEPOSIT)))
  const PRICED: World := By(By(SPLIT, ISSUER, SetPrice(10_800_000, 60)), ISSUER, Around(PassTime(60, 0)))
  const CLAIMED: World := By(PRICED, ALICE, OnManager(ClaimAccrued))
  const MATURED: World := By(By(CLAIMED, ISSUER, SetPrice(11_000_000, 100)), ISSUER, Around(PassTime(100, 0)))

  lemma Wrapped()
    ensures Deployed(GENESIS)
    ensures WRAPPED == GENESIS.(
      net := GENESIS.net.(sac := map[ALICE := 0, 1 := DEPOSIT]),
      sy := SYWrapper.Sy(ISSUER, DEPOSIT, DEPOSIT, map[ALICE := DEPOSIT], false))
  {
  }

  lemma WrappedInv()
    ensures Inv(MARKET, WRAPPED)
  {
    Wrapped();
    DeployedInv(MARKET, GENESIS);
    StepKeeps(MARKET, GENESIS, Tx(ALICE, OnSy(Deposit(DEPOSIT))));
  }

  /** A first customer splitting all of its shares at par. */
  lemma SplitAll(w: World, n: nat)
    requires w.oracle.reading == Some(Reading(10_000_000, 50)) && PM.Notional(n, SCALE) == n
    requires w.sy == SYWrapper.Sy(ISSUER, n, n, map[ALICE := n], false)
    requires w.pt == PTToken.Fresh() && w.yt == YTToken.Yt(YL.Genesis(SCALE), map[])
    requires Step(MARKET, w, Tx(ALICE, OnManager(Split(n)))).Ok?
    ensures By(w, ALICE, OnManager(Split(n))) == w.(
      sy := SYWrapper.Sy(ISSUER, n, n, map[ALICE := 0, 4 := n], false),
      pt := PTToken.Pt(map[ALICE := n], map[], n),
      yt := YTToken.Yt(YL.Ledger(SCALE, SCALE, map[ALICE := n], map[ALICE := SCALE], map[], n), map[]))
  {
    MintEffect(MARKET, w, ALICE, ALICE, n);
    FirstUnits(n);
    assert Moved(map[ALICE := n], ALICE, 4, n) == map[ALICE := 0, 4 := n];
    assert w.pt.balance[ALICE := At(w.pt.balance, ALICE) + n] == map[ALICE := n];
  }

  lemma SplitSucceeds()
    ensures Inv(MARKET, WRAPPED) && Step(MARKET, WRAPPED, Tx(ALICE, OnManager(Split(DEPOSIT)))).Ok?
  {
    Wrapped();
    WrappedInv();
    Backing.SplitSucceedsIff(MARKET, WRAPPED, ALICE, DEPOSIT);
  }

  /** The first units issued to Alice on an empty ledger. */
  lemma FirstUnits(n: nat)
    requires n > 0
    ensures YL.Apply(YL.Apply(YL.Genesis(SCALE), YL.Index(SCALE)), YL.Issue(ALICE, n)) ==
            YL.Ledger(SCALE, SCALE, map[ALICE := n], map[ALICE := SCALE], map[], n)
  {
  }

  lemma WrapAndSplit()
    ensures Deployed(GENESIS)
    ensures SPLIT == WRAPPED.(
      sy := SYWrapper.Sy(ISSUER, DEPOSIT, DEPOSIT, map[ALICE := 0, 4 := DEPOSIT], false),
      pt := PTToken.Pt(map[ALICE := DEPOSIT], map[], DEPOSIT),
      yt := YTToken.Yt(YL.Ledger(SCALE, SCALE, map[ALICE := DEPOSIT], map[ALICE := SCALE], map[], DEPOSIT), map[]))
    ensures WRAPPED.net == GENESIS.net.(sac := map[ALICE := 0, 1 := DEPOSIT])
    ensures WRAPPED.oracle == GENESIS.oracle && WRAPPED.manager == GENESIS.manager
  {
    Wrapped();
    SplitSucceeds();
    Backing.NotionalAtScale(DEPOSIT);
    SplitAll(WRAPPED, DEPOSIT);
  }

  lemma PriceUpdates(w: World, value: Price, timestamp: nat)
    requires w.oracle.admin == ISSUER && PriceOr0(w.oracle) <= value && TimestampOr0(w.oracle) < timestamp
    ensures By(w, ISSUER, SetPrice(value, timestamp)) == w.(oracle := Oracle(ISSUER, Some(Reading(value, timestamp))))
  {
  }

  lemma PricedState()
    ensures PRICED == SPLIT.(net := SPLIT.net.(now := 60), oracle := Oracle(ISSUER, Some(Reading(10_800_000, 60))))
    ensures Indexed(PRICED) ==
            YL.Ledger(9_259_259, 10_800_000, map[ALICE := DEPOSIT], map[ALICE := SCALE], map[], DEPOSIT)
  {
    WrapAndSplit();
    var quoted := By(SPLIT, ISSUER, SetPrice(10_800_000, 60));
    PriceUpdates(SPLIT, 10_800_000, 60);
    assert PRICED == quoted.(net := quoted.net.(now := 60));
    FirstMove(SPLIT.yt.ledger);
  }

  lemma FirstMove(l: YL.Ledger)
    requires l.index == SCALE && l.rate == SCALE
    ensures YL.Apply(l, YL.Index(10_800_000)) == l.(index := 9_259_259, rate := 10_800_000)
  {
    RecordedIndexes();
  }

  lemma PricedInv()
    ensures Inv(MARKET, PRICED)
  {
    WrapAndSplit();
    DeployedInv(MARKET, GENESIS);
    StepKeeps(MARKET, GENESIS, Tx(ALICE, OnSy(Deposit(DEPOSIT))));
    StepKeeps(MARKET, WRAPPED, Tx(ALICE, OnManager(Split(DEPOSIT))));
    StepKeeps(MARKET, SPLIT, Tx(ISSUER, SetPrice(10_800_000, 60)));
    StepKeeps(MARKET, By(SPLIT, ISSUER, SetPrice(10_800_000, 60)), Tx(ISSUER, Around(PassTime(60, 0))));
  }

  /** What is due to Alice once the index has moved to 1.08. */
  lemma DueMidway()
    ensures YL.Claimable(Indexed(PRICED), ALICE) == 370_370_500
    ensures YL.Apply(Indexed(PRICED), YL.Claim(ALICE)) ==
            YL.Ledger(9_259_259, 10_800_000, map[ALICE := DEPOSIT], map[ALICE := 9_259_259], map[ALICE := 0], DEPOSIT)
  {
    PricedState();
    RecordedIndexes();
    assert YL.OwedTo(Indexed(PRICED), ALICE) == 370_370_500;
  }

  lemma ClaimGatesOpen(w: World)
    requires Inv(MARKET, w) && !w.manager.paused && !w.sy.paused && Timely(w)
    requires w.net.authorized == GENESIS.net.authorized && w.net.allowed == GENESIS.net.allowed
    requires YL.Claimable(Indexed(w), ALICE) <= Custody(MARKET, w)
    ensures Step(MARKET, w, Tx(ALICE, OnManager(ClaimAccrued))).Ok?
  {
    Backing.ClaimSucceedsIff(MARKET, w, ALICE);
  }

  lemma ClaimLeaves(w: World)
    requires Inv(MARKET, w) && Step(MARKET, w, Tx(ALICE, OnManager(ClaimAccrued))).Ok?
    ensures var w' := By(w, ALICE, OnManager(ClaimAccrued));
            && Custody(MARKET, w') == Custody(MARKET, w) - YL.Claimable(Indexed(w), ALICE)
            && w' == w.(sy := w'.sy, net := w'.net, yt := w'.yt)
            && SameSurroundings(w.net, w'.net) && w'.sy.paused == w.sy.paused
            && w'.yt.ledger == YL.Apply(Indexed(w), YL.Claim(ALICE))
  {
    ClaimEffect(MARKET, w, ALICE, ALICE);
  }

  /** At 1.08 Alice claims 37.03705 units of asset out of her own deposit. */
  lemma ClaimMidway()
    ensures Step(MARKET, PRICED, Tx(ALICE, OnManager(ClaimAccrued))).Ok?
    ensures Custody(MARKET, CLAIMED) == 4_629_629_500
    ensures CLAIMED == PRICED.(sy := CLAIMED.sy, net := CLAIMED.net, yt := CLAIMED.yt)
    ensures SameSurroundings(PRICED.net, CLAIMED.net) && CLAIMED.sy.paused == false
    ensures CLAIMED.yt.ledger == YL.Apply(Indexed(PRICED), YL.Claim(ALICE))
  {
    WrapAndSplit();
    PricedState();
    PricedInv();
    DueMidway();
    ClaimGatesOpen(PRICED);
    ClaimLeaves(PRICED);
  }

  /** At 1.10 and maturity: the second interval is owed in full and the PT is still all there. */
  lemma MaturedState()
    ensures MATURED == CLAIMED.(
      net := CLAIMED.net.(now := 100),
      oracle := Oracle(ISSUER, Some(Reading(11_000_000, 100))))
    ensures Indexed(MATURED) == YL.Ledger(
              9_090_908, 11_000_000, map[ALICE := DEPOSIT], map[ALICE := 9_259_259], map[ALICE := 0], DEPOSIT)
    ensures YL.Claimable(YL.Apply(Indexed(MATURED), YL.Destroy(ALICE, DEPOSIT)), ALICE) == 90_909_542
  {
    WrapAndSplit();
    PricedState();
    ClaimMidway();
    DueMidway();
    RecordedIndexes();
    var l := Indexed(MATURED);
    assert l.index == 9_090_908 && l.rate == 11_000_000;
    assert YL.OwedTo(l, ALICE) == 90_909_542;
    Backing.ClaimOfRow(l, ALICE, DEPOSIT);
  }

  /** The state is reached from deployment by these transactions. */
  function Script(): seq<Tx> {
    [Tx(ALICE, OnSy(Deposit(DEPOSIT))), Tx(ALICE, OnManager(Split(DEPOSIT))),
     Tx(ISSUER, SetPrice(10_800_000, 60)), Tx(ISSUER, Around(PassTime(60, 0))),
     Tx(ALICE, OnManager(ClaimAccrued)),
     Tx(ISSUER, SetPrice(11_000_000, 100)), Tx(ISSUER, Around(PassTime(100, 0)))]
  }

  lemma RunSnoc(w: World, txs: seq<Tx>, n: nat)
    requires n < |txs|
    ensures Run(MARKET, w, txs[..n + 1]) == Next(MARKET, Run(MARKET, w, txs[..n]), txs[n])
  {
    assert txs[..n + 1][..n] == txs[..n];
  }

  lemma ScriptReachesMatured()
    ensures Run(MARKET, GENESIS, Script()) == MATURED
  {
    var txs := Script();
    assert txs[..0] == [];
    RunSnoc(GENESIS, txs, 0);
    RunSnoc(GENESIS, txs, 1);
    RunSnoc(GENESIS, txs, 2);
    RunSnoc(GENESIS, txs, 3);
    RunSnoc(GENESIS, txs, 4);
    RunSnoc(GENESIS, txs, 5);
    RunSnoc(GENESIS, txs, 6);
    assert txs[..7] == txs;
  }

  lemma MaturedRefuses()
    requires Inv(MARKET, MATURED)
    ensures Step(MARKET, MATURED, Tx(ALICE, OnManager(Redeem(DEPOSIT, DEPOSIT)))).Err?
  {
    WrapAndSplit();
    PricedState();
    ClaimMidway();
    MaturedState();
    RecordedRunOverpays();
    Backing.RedeemSucceedsIff(MARKET, MATURED, ALICE, DEPOSIT, DEPOSIT);
  }

  lemma MaturedRedeemsPt()
    requires Inv(MARKET, MATURED)
    ensures Step(MARKET, MATURED, Tx(ALICE, OnManager(Redeem(DEPOSIT, 0)))).Ok?
    ensures At(MATURED.pt.balance, ALICE) == At(MATURED.yt.ledger.balance, ALICE) == DEPOSIT
    ensures Timely(MATURED) && MATURED.net.now >= MARKET.maturity && !MATURED.manager.paused
        && !MATURED.sy.paused
  {
    WrapAndSplit();
    PricedState();
    ClaimMidway();
    DueMidway();
    MaturedState();
    Backing.RedeemSucceedsIff(MARKET, MATURED, ALICE, DEPOSIT, 0);
  }

  /** The recorded run with no other customer in the market: at maturity every gate is open, the oracle
      is fresh and Alice holds all PT and YT, yet redeeming them is refused; her PT alone is redeemed. */
  lemma DeployedRunCannotSettle()
    ensures Deployed(GENESIS) && MARKET.Valid()
    ensures var z := Run(MARKET, GENESIS, Script());
            && At(z.pt.balance, ALICE) == At(z.yt.ledger.balance, ALICE) == DEPOSIT
            && Timely(z) && z.net.now >= MARKET.maturity && !z.manager.paused && !z.sy.paused
            && Step(MARKET, z, Tx(ALICE, OnManager(Redeem(DEPOSIT, DEPOSIT)))).Err?
            && Step(MARKET, z, Tx(ALICE, OnManager(Redeem(DEPOSIT, 0)))).Ok?
  {
    WrapAndSplit();
    DeployedInv(MARKET, GENESIS);
    RunKeeps(MARKET, GENESIS, Script());
    ScriptReachesMatured();
    MaturedRefuses();
    MaturedRedeemsPt();
  }
}
