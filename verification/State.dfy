/** The client's state for one network, as far as the modelled part of the reducer touches it. */
module NetworkState {
  import opened Units
  import opened ISupport
  import opened Members
  import opened Modes
  import opened MuteList
  import opened MessageBuffer
  import opened CtcpCodec
  import opened DccOffers
  import Batches

  datatype Topic = Topic(text: Text, setBy: Option<Text>, at: Option<int>)

  datatype PendingKind = LatestPage | OlderPage | MissedPage

  datatype PendingHistory = PendingHistory(kind: PendingKind, limit: nat)

  datatype Channel = Channel(
    name: Text,
    joined: bool,
    topic: Option<Topic>,
    modes: ChannelModes,
    members: MemberMap,
    namesLoading: bool,
    pendingPrefixChanges: seq<ModeChange>,
    messages: Buffer,
    historyComplete: bool,
    historyGap: bool,
    historyPending: Option<PendingHistory>)

  type Channels = map<Text, Channel>

  function EmptyChannel(name: Text): Channel {
    Channel(name, false, None, ChannelModes({}, map[]), map[], false, [], [], false, false, None)
  }

  datatype Phase = Disconnected | Registering | Registered

  datatype Network = Network(
    phase: Phase,
    nick: Text,
    triedNicks: seq<Text>,
    userModes: set<Unit>,
    account: Option<Text>,
    away: bool,
    channels: Channels,
    queries: Channels,
    notices: Buffer,
    ignores: seq<Rule>,
    batches: Batches.Counts,
    ctcpVersions: map<Text, Text>)

  datatype Effect =
    | RegistrationDone
    | DccOffered(from: Text, target: Text, offer: DccSend, senderHost: Option<Text>)
    | DccAccepted(from: Text, params: Text)
    | DccUnreadable(from: Text, target: Text, params: Text)
    | XdccOffered(from: Text, target: Text, body: Text)
    | XdccAnswered(from: Text, target: Text, body: Text)

  /**
    * What a step needs besides the state: the server's settings, the profile,
    * and the functions of the text alone that are not modelled - reading a
    * date, wording a notice, and the heuristics for XDCC lines.
    */
  datatype Context = Context(
    support: Support,
    altNicks: seq<Text>,
    readTime: Text -> Option<int>,
    wording: Messages.Message -> Text,
    ctcpAnswer: (Ctcp, int) -> Option<Text>,
    isDccAccept: Ctcp -> bool,
    isXdccOffer: Text -> bool,
    isXdccAnswer: Text -> bool)

  datatype Reduction = Reduction(state: Network, send: seq<Text>, effects: seq<Effect>)
}
