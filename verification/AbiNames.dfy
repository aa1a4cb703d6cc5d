/**
 The kinds that the ABI names of the protocol's contracts classify as (db.go: classify). Factories and
 deployers also mention reserves, pools and Curve, so they are told apart first.
 */
module AbiNames {
  import opened Kinds
  import opened Text

  /** The word begins at i, as far as its first two letters tell. */
  predicate Begins(n: string, word: string, i: nat)
    requires |word| >= 2 && i + |word| <= |n|
  {
    n[i] == word[0] && n[i + 1] == word[1]
  }

  lemma Absent(n: string, word: string)
    requires |word| >= 2 && forall i :: 0 <= i <= |n| - |word| ==> !Begins(n, word, i)
    ensures !Contains(n, word)
  {
    forall i | 0 <= i <= |n| - |word|
      ensures !OccursAt(n, word, i)
    {
      assert !Begins(n, word, i);
      assert n[i..i + |word|][0] == n[i] && n[i..i + |word|][1] == n[i + 1];
    }
  }

  lemma Present(n: string, word: string, i: nat)
    requires i + |word| <= |n| && n[i..i + |word|] == word
    ensures Contains(n, word)
  {
    assert OccursAt(n, word, i);
  }

  lemma BaseReserveNameLacks()
    ensures !Contains("clearbasereserve", "oracle") && !Contains("clearbasereserve", "factory")
  {
    hide Contains;
    Absent("clearbasereserve", "oracle");
    Absent("clearbasereserve", "factory");
  }

  lemma BaseReserveNameLacksB()
    ensures !Contains("clearbasereserve", "deployer") && !Contains("clearbasereserve", "meta")
  {
    hide Contains;
    Absent("clearbasereserve", "deployer");
    Absent("clearbasereserve", "meta");
  }

  lemma BaseReserveNameLower()
    ensures ToLower("ClearBaseReserve") == "clearbasereserve"
  {
  }

  lemma BaseReserveName()
    ensures Classify("ClearBaseReserve") == BaseReserveKind
  {
    hide Contains, ToLower;
    BaseReserveNameLower();
    BaseReserveNameLacks();
    BaseReserveNameLacksB();
    Present("clearbasereserve", "base", 5);
    Present("clearbasereserve", "reserve", 9);
  }

  lemma MetaReserveNameLacks()
    ensures !Contains("clearmetareserve", "oracle") && !Contains("clearmetareserve", "factory")
  {
    hide Contains;
    Absent("clearmetareserve", "oracle");
    Absent("clearmetareserve", "factory");
  }

  lemma MetaReserveNameLacksB()
    ensures !Contains("clearmetareserve", "deployer")
  {
    hide Contains;
    Absent("clearmetareserve", "deployer");
  }

  lemma MetaReserveNameLower()
    ensures ToLower("ClearMetaReserve") == "clearmetareserve"
  {
  }

  lemma MetaReserveName()
    ensures Classify("ClearMetaReserve") == MetaReserveKind
  {
    hide Contains, ToLower;
    MetaReserveNameLower();
    MetaReserveNameLacks();
    MetaReserveNameLacksB();
    Present("clearmetareserve", "meta", 5);
    Present("clearmetareserve", "reserve", 9);
  }

  lemma IouNameLacks()
    ensures !Contains("cleariou", "oracle") && !Contains("cleariou", "factory")
  {
    hide Contains;
    Absent("cleariou", "oracle");
    Absent("cleariou", "factory");
  }

  lemma IouNameLacksB()
    ensures !Contains("cleariou", "deployer") && !Contains("cleariou", "reserve")
  {
    hide Contains;
    Absent("cleariou", "deployer");
    Absent("cleariou", "reserve");
  }

  lemma IouNameLower()
    ensures ToLower("ClearIOU") == "cleariou"
  {
  }

  lemma IouName()
    ensures Classify("ClearIOU") == IouKind
  {
    hide Contains, ToLower;
    IouNameLower();
    IouNameLacks();
    IouNameLacksB();
    Present("cleariou", "iou", 5);
  }

  lemma PoolNameLacks()
    ensures !Contains("curvestableswapng", "oracle") && !Contains("curvestableswapng", "factory")
  {
    hide Contains;
    Absent("curvestableswapng", "oracle");
    Absent("curvestableswapng", "factory");
  }

  lemma PoolNameLacksB()
    ensures !Contains("curvestableswapng", "deployer") && !Contains("curvestableswapng", "reserve")
  {
    hide Contains;
    Absent("curvestableswapng", "deployer");
    Absent("curvestableswapng", "reserve");
  }

  lemma PoolNameLacksC()
    ensures !Contains("curvestableswapng", "iou")
  {
    hide Contains;
    Absent("curvestableswapng", "iou");
  }

  lemma PoolNameLower()
    ensures ToLower("CurveStableSwapNG") == "curvestableswapng"
  {
  }

  lemma PoolName()
    ensures Classify("CurveStableSwapNG") == CurveKind
  {
    hide Contains, ToLower;
    PoolNameLower();
    PoolNameLacks();
    PoolNameLacksB();
    PoolNameLacksC();
    Present("curvestableswapng", "curve", 0);
  }

  lemma OracleNameLower()
    ensures ToLower("ClearOracle") == "clearoracle"
  {
  }

  lemma OracleName()
    ensures Classify("ClearOracle") == OracleKind
  {
    hide Contains, ToLower;
    OracleNameLower();
    Present("clearoracle", "oracle", 5);
  }

  lemma ReserveFactoryNameLacks()
    ensures !Contains("clearreservefactory", "oracle") && !Contains("clearreservefactory", "curve")
  {
    hide Contains;
    Absent("clearreservefactory", "oracle");
    Absent("clearreservefactory", "curve");
  }

  lemma ReserveFactoryNameLacksB()
    ensures !Contains("clearreservefactory", "stableswap") && !Contains("clearreservefactory", "deployer")
  {
    hide Contains;
    Absent("clearreservefactory", "stableswap");
    Absent("clearreservefactory", "deployer");
  }

  lemma ReserveFactoryNameLower()
    ensures ToLower("ClearReserveFactory") == "clearreservefactory"
  {
  }

  lemma ReserveFactoryName()
    ensures Classify("ClearReserveFactory") == FactoryKind
  {
    hide Contains, ToLower;
    ReserveFactoryNameLower();
    ReserveFactoryNameLacks();
    ReserveFactoryNameLacksB();
    Present("clearreservefactory", "factory", 12);
    Present("clearreservefactory", "reserve", 5);
  }

  lemma PoolDeployerNameLacks()
    ensures !Contains("clearcurvepooldeployer", "oracle") && !Contains("clearcurvepooldeployer", "factory")
  {
    hide Contains;
    Absent("clearcurvepooldeployer", "oracle");
    Absent("clearcurvepooldeployer", "factory");
  }

  lemma PoolDeployerNameLower()
    ensures ToLower("ClearCurvePoolDeployer") == "clearcurvepooldeployer"
  {
  }

  lemma PoolDeployerName()
    ensures Classify("ClearCurvePoolDeployer") == CurveDeployerKind
  {
    hide Contains, ToLower;
    PoolDeployerNameLower();
    PoolDeployerNameLacks();
    Present("clearcurvepooldeployer", "deployer", 14);
  }

  lemma CurveFactoryNameLacks()
    ensures !Contains("curvestableswapfactoryng", "oracle")
  {
    hide Contains;
    Absent("curvestableswapfactoryng", "oracle");
  }

  lemma CurveFactoryNameLower()
    ensures ToLower("CurveStableSwapFactoryNG") == "curvestableswapfactoryng"
  {
  }

  lemma CurveFactoryName()
    ensures Classify("CurveStableSwapFactoryNG") == CurveFactoryKind
  {
    hide Contains, ToLower;
    CurveFactoryNameLower();
    CurveFactoryNameLacks();
    Present("curvestableswapfactoryng", "factory", 15);
    Present("curvestableswapfactoryng", "curve", 0);
  }

  lemma TokenNameLacks()
    ensures !Contains("erc20", "oracle") && !Contains("erc20", "factory")
  {
    hide Contains;
    Absent("erc20", "oracle");
    Absent("erc20", "factory");
  }

  lemma TokenNameLacksB()
    ensures !Contains("erc20", "deployer") && !Contains("erc20", "reserve")
  {
    hide Contains;
    Absent("erc20", "deployer");
    Absent("erc20", "reserve");
  }

  lemma TokenNameLacksC()
    ensures !Contains("erc20", "iou") && !Contains("erc20", "curve")
  {
    hide Contains;
    Absent("erc20", "iou");
    Absent("erc20", "curve");
  }

  lemma TokenNameLacksD()
    ensures !Contains("erc20", "stableswap") && !Contains("erc20", "pool")
  {
    hide Contains;
    Absent("erc20", "stableswap");
    Absent("erc20", "pool");
  }

  lemma TokenNameLower()
    ensures ToLower("ERC20") == "erc20"
  {
  }

  lemma TokenName()
    ensures Classify("ERC20") == UnknownKind
  {
    hide Contains, ToLower;
    TokenNameLower();
    TokenNameLacks();
    TokenNameLacksB();
    TokenNameLacksC();
    TokenNameLacksD();
  }

  /** The names of the contracts the exporter follows classify as what they are, and a plain token's as unknown. */
  lemma ProtocolNames()
    ensures Classify("ClearBaseReserve") == BaseReserveKind && Classify("ClearMetaReserve") == MetaReserveKind
    ensures Classify("ClearIOU") == IouKind && Classify("CurveStableSwapNG") == CurveKind
    ensures Classify("ClearOracle") == OracleKind && Classify("ClearReserveFactory") == FactoryKind
    ensures Classify("ClearCurvePoolDeployer") == CurveDeployerKind
    ensures Classify("CurveStableSwapFactoryNG") == CurveFactoryKind && Classify("ERC20") == UnknownKind
  {
    hide Classify;
    BaseReserveName();
    MetaReserveName();
    IouName();
    PoolName();
    OracleName();
    ReserveFactoryName();
    PoolDeployerName();
    CurveFactoryName();
    TokenName();
  }
}
