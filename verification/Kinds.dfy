/** Contract kinds and their stored tokens (registry.go, db.go). */
module Kinds {
  import opened Text

  datatype Kind =
    | UnknownKind
    | BaseReserveKind
    | MetaReserveKind
    | IouKind
    | CurveKind
    | OracleKind
    | FactoryKind
    | CurveDeployerKind
    | CurveFactoryKind

  /** The token of a kind in clear_contracts.kind and in the configuration. */
  function KindToken(k: Kind): string {
    match k
    case BaseReserveKind => "base_reserve"
    case MetaReserveKind => "meta_reserve"
    case IouKind => "iou"
    case CurveKind => "curve"
    case OracleKind => "oracle"
    case FactoryKind => "factory"
    case CurveDeployerKind => "curve_deployer"
    case CurveFactoryKind => "curve_factory"
    case UnknownKind => "unknown"
  }

  function KindFromString(s: string): Kind {
    KindOfToken(ToLower(TrimSpace(s)))
  }

  function KindOfToken(n: string): Kind {
    if n in ["base_reserve", "basereserve", "base"] then BaseReserveKind
    else if n in ["meta_reserve", "metareserve", "meta"] then MetaReserveKind
    else if n in ["iou"] then IouKind
    else if n in ["curve", "pool", "stableswap", "stableswapng"] then CurveKind
    else if n in ["oracle"] then OracleKind
    else if n in ["factory", "reserve_factory", "reservefactory"] then FactoryKind
    else if n in ["curve_deployer", "curvedeployer", "pool_deployer", "pooldeployer", "deployer"] then CurveDeployerKind
    else if n in ["curve_factory", "curvefactory", "stableswap_factory", "stableswapfactory",
                  "pool_factory", "poolfactory"] then CurveFactoryKind
    else UnknownKind
  }

  /** First-sight classification of an ABI contract name; the order of the tests matters. */
  function Classify(contractName: string): Kind {
    var n := ToLower(contractName);
    if Contains(n, "oracle") then OracleKind
    else if Contains(n, "factory") && (Contains(n, "curve") || Contains(n, "stableswap")) then CurveFactoryKind
    else if Contains(n, "deployer") then CurveDeployerKind
    else if Contains(n, "factory") && Contains(n, "reserve") then FactoryKind
    else if Contains(n, "meta") && Contains(n, "reserve") then MetaReserveKind
    else if Contains(n, "base") && Contains(n, "reserve") then BaseReserveKind
    else if Contains(n, "reserve") then BaseReserveKind
    else if Contains(n, "iou") then IouKind
    else if Contains(n, "curve") || Contains(n, "stableswap") || Contains(n, "pool") then CurveKind
    else UnknownKind
  }

  lemma PlainIsFixed(s: string)
    requires forall i :: 0 <= i < |s| ==> !IsSpace(s[i]) && LowerChar(s[i]) == s[i]
    ensures ToLower(TrimSpace(s)) == s
  {
    assert TrimLeft(s) == s && TrimRight(s) == s;
    assert ToLower(s) == s;
  }

  lemma TokenIsPlain(k: Kind)
    ensures forall i :: 0 <= i < |KindToken(k)| ==>
            !IsSpace(KindToken(k)[i]) && LowerChar(KindToken(k)[i]) == KindToken(k)[i]
  {
  }

  lemma TokenNamesKind(k: Kind)
    ensures KindOfToken(KindToken(k)) == k
  {
    match k
    case BaseReserveKind =>
    case MetaReserveKind =>
    case IouKind =>
    case CurveKind =>
    case OracleKind =>
    case FactoryKind =>
    case CurveDeployerKind =>
    case CurveFactoryKind =>
    case UnknownKind =>
  }

  // The other spellings a configuration may use.

  lemma ReserveSpellings()
    ensures KindOfToken("base") == BaseReserveKind && KindOfToken("basereserve") == BaseReserveKind
    ensures KindOfToken("meta") == MetaReserveKind && KindOfToken("metareserve") == MetaReserveKind
  {
  }

  lemma PoolSpellings()
    ensures KindOfToken("pool") == CurveKind
    ensures KindOfToken("stableswap") == CurveKind && KindOfToken("stableswapng") == CurveKind
  {
  }

  lemma FactorySpellings()
    ensures KindOfToken("reserve_factory") == FactoryKind && KindOfToken("reservefactory") == FactoryKind
  {
  }

  lemma DeployerSpellings()
    ensures KindOfToken("curvedeployer") == CurveDeployerKind && KindOfToken("pool_deployer") == CurveDeployerKind
    ensures KindOfToken("pooldeployer") == CurveDeployerKind && KindOfToken("deployer") == CurveDeployerKind
  {
  }

  lemma PoolFactorySpellings()
    ensures KindOfToken("curvefactory") == CurveFactoryKind && KindOfToken("stableswap_factory") == CurveFactoryKind
    ensures KindOfToken("stableswapfactory") == CurveFactoryKind
  {
  }

  lemma PoolFactorySpellingsB()
    ensures KindOfToken("pool_factory") == CurveFactoryKind && KindOfToken("poolfactory") == CurveFactoryKind
  {
  }

  /** The spellings of each kind besides its token, in any case and between blanks. */
  function Synonyms(k: Kind): seq<string> {
    match k
    case BaseReserveKind => ["base", "basereserve"]
    case MetaReserveKind => ["meta", "metareserve"]
    case CurveKind => ["pool", "stableswap", "stableswapng"]
    case FactoryKind => ["reserve_factory", "reservefactory"]
    case CurveDeployerKind => ["curvedeployer", "pool_deployer", "pooldeployer", "deployer"]
    case CurveFactoryKind =>
      ["curvefactory", "stableswap_factory", "stableswapfactory", "pool_factory", "poolfactory"]
    case _ => []
  }

  /** Any spelling of a kind, in any case and between blanks, is read as the kind. */
  lemma SpellingsRead(s: string, k: Kind)
    requires ToLower(TrimSpace(s)) in Synonyms(k)
    ensures KindFromString(s) == k
  {
    hide KindOfToken, ToLower, TrimSpace;
    ReserveSpellings();
    PoolSpellings();
    FactorySpellings();
    DeployerSpellings();
    PoolFactorySpellings();
    PoolFactorySpellingsB();
  }

  /** A stored kind is read back as the kind that was stored. */
  lemma KindRoundTrip(k: Kind)
    ensures KindFromString(KindToken(k)) == k
  {
    hide KindOfToken;
    TokenIsPlain(k);
    TokenNamesKind(k);
    PlainIsFixed(KindToken(k));
  }
}
