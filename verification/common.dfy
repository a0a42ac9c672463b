/** The properties shared by every connection of one synapse model
    (ModulatoryCommonProperties): the bound volume transmitter and the
    normalising constant `max_modulation`. */
module Common {
  import opened Results

  /** A volume transmitter as the connections see it: its gid and the
      deliver interval (in simulation steps) it reports in its status. */
  datatype VolumeTransmitter = VolumeTransmitter(gid: int, deliverInterval: int)

  /** Node lookup by gid followed by the cast to a volume transmitter:
      None when the gid does not name a volume transmitter. */
  type Network = int -> Option<VolumeTransmitter>

  /** A network whose lookup returns only the node that has the asked gid. */
  ghost predicate Consistent(net: Network) {
    forall g :: net(g).Some? ==> net(g).value.gid == g
  }

  /** `vt` is None while no transmitter is bound (the null pointer). */
  datatype CommonProperties = CommonProperties(vt: Option<VolumeTransmitter>, maxModulation: int)

  /** The gid reported for an unbound transmitter. */
  const NoGid: int := -1

  const NoTransmitterMessage: string :=
    "No volume transmitter has been assigned to the dopamine synapse."
  const NotTransmitterMessage: string :=
    "Modulatory source must be volume transmitter"

  /** The default-constructed properties: nothing bound, normaliser 1. */
  function Default(): (cp: CommonProperties)
    ensures cp.vt.None?
    ensures cp.maxModulation == 1
  {
    CommonProperties(None, 1)
  }

  /** The gid of the bound transmitter, or -1 when none is bound. */
  function VtGid(cp: CommonProperties): (gid: int)
    ensures cp.vt.None? ==> gid == NoGid
    ensures cp.vt.Some? ==> gid == cp.vt.value.gid
  {
    match cp.vt
    case None => NoGid
    case Some(t) => t.gid
  }

  /** The bound transmitter; throws BadProperty when none is bound. */
  function GetNode(cp: CommonProperties): (r: Result<VolumeTransmitter>)
    ensures r.Ok? <==> cp.vt.Some?
    ensures r.Ok? ==> cp.vt == Some(r.value)
    ensures r.Err? ==> r.error == BadProperty(NoTransmitterMessage)
  {
    if cp.vt.None? then Err(BadProperty(NoTransmitterMessage)) else Ok(cp.vt.value)
  }

  /** The status dictionary the properties report. */
  datatype CommonStatus = CommonStatus(vt: int, maxModulation: int)

  /** A status dictionary handed to the setter; None marks an absent key. */
  datatype CommonUpdate = CommonUpdate(maxModulation: Option<int>, vt: Option<int>)

  /** The state after the setter, and the exception it threw, if any. The
      setter is not atomic, so a throwing call still has a new state. */
  datatype SetOutcome = SetOutcome(props: CommonProperties, thrown: Option<Error>)

  /** Reports `vt` as the bound gid or -1, and `max_modulation`. */
  function GetStatus(cp: CommonProperties): (s: CommonStatus)
    ensures cp.vt.None? ==> s.vt == NoGid
    ensures cp.vt.Some? ==> s.vt == cp.vt.value.gid
    ensures s.maxModulation == cp.maxModulation
  {
    CommonStatus(VtGid(cp), cp.maxModulation)
  }

  /** The dictionary that carries every reported key back to the setter. */
  function AsUpdate(s: CommonStatus): (d: CommonUpdate)
    ensures d.maxModulation == Some(s.maxModulation) && d.vt == Some(s.vt)
  {
    CommonUpdate(Some(s.maxModulation), Some(s.vt))
  }

  /** The setter. `max_modulation` is taken as given, with no validation,
      before the `vt` key is looked at. A present `vt` key replaces the
      binding by the lookup result, so a gid that is not a volume
      transmitter leaves nothing bound and throws BadProperty. An absent
      `vt` key keeps the binding. */
  function SetStatus(cp: CommonProperties, d: CommonUpdate, net: Network): (r: SetOutcome)
    ensures d.maxModulation.Some? ==> r.props.maxModulation == d.maxModulation.value
    ensures d.maxModulation.None? ==> r.props.maxModulation == cp.maxModulation
    ensures d.vt.None? ==> r.props.vt == cp.vt && r.thrown.None?
    ensures d.vt.Some? ==> r.props.vt == net(d.vt.value)
    ensures r.thrown.Some? <==> d.vt.Some? && net(d.vt.value).None?
    ensures r.thrown.Some? ==> r.thrown.value == BadProperty(NotTransmitterMessage) && r.props.vt.None?
  {
    var maxModulation := if d.maxModulation.Some? then d.maxModulation.value else cp.maxModulation;
    var written := cp.(maxModulation := maxModulation);
    match d.vt
    case None => SetOutcome(written, None)
    case Some(g) =>
      var found := net(g);
      if found.None? then SetOutcome(written.(vt := None), Some(BadProperty(NotTransmitterMessage)))
      else SetOutcome(written.(vt := found), None)
  }

  /** Writing back what the getter reported is a no-op, when the network
      still resolves the bound gid to the same transmitter. */
  lemma StatusRoundTrip(cp: CommonProperties, net: Network)
    requires cp.vt.Some? && net(cp.vt.value.gid) == cp.vt
    ensures SetStatus(cp, AsUpdate(GetStatus(cp)), net) == SetOutcome(cp, None)
  {
  }

  /** A successful setter call with a `vt` key binds the transmitter that
      has that gid, and the getter then reports that gid. */
  lemma SetStatusBindsGid(cp: CommonProperties, d: CommonUpdate, net: Network)
    requires Consistent(net)
    requires d.vt.Some?
    requires SetStatus(cp, d, net).thrown.None?
    ensures GetStatus(SetStatus(cp, d, net).props).vt == d.vt.value
    ensures GetNode(SetStatus(cp, d, net).props) == Ok(net(d.vt.value).value)
  {
  }

  /** A rejected `vt` key loses any previous binding, so a later `get_node`
      throws, yet the new `max_modulation` is kept. */
  lemma RejectedVtLosesBinding(cp: CommonProperties, m: int, g: int, net: Network)
    requires net(g).None?
    ensures SetStatus(cp, CommonUpdate(Some(m), Some(g)), net).props == CommonProperties(None, m)
    ensures GetNode(SetStatus(cp, CommonUpdate(Some(m), Some(g)), net).props).Err?
  {
  }
}
