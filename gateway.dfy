/**
 * The network gateway switch: the base every gateway embeds records which gateway the node
 * currently runs, and a pulse moves a bootstrapped node to the complete-network gateway.
 */
module Gateway {
  import opened Wrappers

  /** The network states a gateway can be built for; any other value is not a known state. */
  datatype NetworkState =
    | NoNetworkState
    | VoidNetworkState
    | JetlessNetworkState
    | AuthorizationNetworkState
    | CompleteNetworkState
    | UnknownState(code: int)

  /** The gateway kinds. */
  datatype GatewayKind = NoNetwork | Void | Jetless | Authorisation | Complete

  /** The gateway `NewGateway` builds for each known state. */
  function KindOf(state: NetworkState): (k: GatewayKind)
    requires !state.UnknownState?
  {
    match state
    case NoNetworkState => NoNetwork
    case VoidNetworkState => Void
    case JetlessNetworkState => Jetless
    case AuthorizationNetworkState => Authorisation
    case CompleteNetworkState => Complete
  }

  /** Distinct states build distinct gateways, and every gateway kind is built for some state. */
  lemma KindOfIsBijective(a: NetworkState, b: NetworkState, k: GatewayKind)
    requires !a.UnknownState? && !b.UnknownState?
    ensures KindOf(a) == KindOf(b) ==> a == b
    ensures exists s: NetworkState :: !s.UnknownState? && KindOf(s) == k
  {
    match k
    case NoNetwork => assert KindOf(NoNetworkState) == k;
    case Void => assert KindOf(VoidNetworkState) == k;
    case Jetless => assert KindOf(JetlessNetworkState) == k;
    case Authorisation => assert KindOf(AuthorizationNetworkState) == k;
    case Complete => assert KindOf(CompleteNetworkState) == k;
  }

  /** The gateway holder of the network service: the current gateway and the gateways run so far. */
  class Gatewayer {
    var current: GatewayKind
    var started: seq<GatewayKind>

    constructor (initial: GatewayKind)
      ensures current == initial && started == []
    {
      current := initial;
      started := [];
    }
  }

  /** `Base`: `me` is the gateway built last (none yet at first). */
  class Base {
    var me: Option<GatewayKind>
    const network: Gatewayer
    /** What the node keeper's `IsBootstrapped` reports. */
    var bootstrapped: bool

    constructor (network: Gatewayer, bootstrapped: bool)
      ensures me == None && this.network == network && this.bootstrapped == bootstrapped
    {
      me := None;
      this.network := network;
      this.bootstrapped := bootstrapped;
    }

    /** `NewGateway`: a known state builds its gateway and stores it in `me`; an unknown state panics. */
    method NewGateway(state: NetworkState) returns (g: GatewayKind)
      requires !state.UnknownState?
      modifies this`me
      ensures g == KindOf(state) && me == Some(g)
    {
      g := KindOf(state);
      me := Some(g);
    }

    /**
     * `OnPulse`: a bootstrapped node switches the network to a new complete gateway and runs
     * it; otherwise nothing changes. It never fails. The current gateway is taken to share
     * this base.
     */
    method OnPulse() returns (err: Option<string>)
      modifies this`me, network
      ensures err == None
      ensures old(bootstrapped) ==> (me == Some(Complete) && network.current == Complete
        && network.started == old(network.started) + [Complete])
      ensures !old(bootstrapped) ==> (me == old(me) && network.current == old(network.current)
        && network.started == old(network.started))
    {
      if bootstrapped {
        var g := NewGateway(CompleteNetworkState);
        network.current := g;
        network.started := network.started + [network.current];
      }
      return None;
    }

    /** `Auther`: the current gateway, which must be one of the authorising kinds (otherwise a panic). */
    method Auther(autherKinds: set<GatewayKind>) returns (a: GatewayKind)
      requires me.Some? && me.value in autherKinds
      ensures a == me.value
    {
      a := me.value;
    }
  }

}
