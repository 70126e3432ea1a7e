/** The network mode of a VM and its canonical string encoding, the one the
    `network_mode` column stores and the JSON request body carries. */
module NetworkModes {
  import opened Common

  datatype NetworkMode = Dhcp | StaticIp

  /** The canonical name of a mode: every mode has one of exactly two names,
      and parsing that name gives the mode back. */
  function AsStr(m: NetworkMode): (s: string)
    ensures s == "dhcp" || s == "static_ip"
    ensures FromStr(s) == Ok(m)
  {
    match m
    case Dhcp => "dhcp"
    case StaticIp => "static_ip"
  }

  /** Parses a mode name. Only the two canonical names are accepted, byte for
      byte; any other string (a different case, surrounding blanks, the empty
      string) is rejected with the unit error. */
  function FromStr(s: string): (r: Result<NetworkMode, ()>)
    ensures r.Ok? <==> s == "dhcp" || s == "static_ip"
    ensures r.Ok? ==> r.value == (if s == "dhcp" then Dhcp else StaticIp)
  {
    if s == "dhcp" then Ok(Dhcp)
    else if s == "static_ip" then Ok(StaticIp)
    else Err(())
  }

  /** Parsing is a left inverse of naming: a string that parses is the name
      of the mode it parses to. */
  lemma FromStrThenAsStr(s: string)
    requires FromStr(s).Ok?
    ensures AsStr(FromStr(s).value) == s
  {
  }

  /** The two modes have distinct names, so the stored string determines
      the mode. */
  lemma AsStrInjective(m1: NetworkMode, m2: NetworkMode)
    ensures AsStr(m1) == AsStr(m2) <==> m1 == m2
  {
  }
}
