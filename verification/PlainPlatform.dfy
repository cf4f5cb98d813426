/** The laws asked of other packages can be met together: the plainest checks there are meet them. */
module PlainPlatform {
  import opened Prelude
  import opened MonitorRules
  import opened ConfigModel
  import opened ConfigChannels

  function PlainVerb(s: string): Option<Verb> {
    if s == "" then Some(Unset)
    else if s == "GET" then Some(GET)
    else if s == "HEAD" then Some(HEAD)
    else if s == "POST" then Some(POST)
    else if s == "PUT" then Some(PUT)
    else if s == "PATCH" then Some(PATCH)
    else if s == "DELETE" then Some(DELETE)
    else if s == "OPTIONS" then Some(OPTIONS)
    else None
  }

  /** Checks that read methods, ask dialled targets not to be blank, and accept everything else as it is. */
  function PlainRules(): Rules {
    Rules(
      PlainVerb, _ => true, _ => true, (_, _) => true, s => s,
      (t, s) => t == Push || TrimSpace(s) != "", _ => true, _ => None, _ => true,
      (t, _) => Some(t), _ => true, e => if e == "" then "null" else e,
      _ => true, (_, _) => true, (_, s) => s, _ => true)
  }

  /** A sender's rule that came after some channels were saved. */
  function PortRule(t: ChannelType, c: Config): Option<Refusal> {
    if t == Email && ValueOf(c, "port") == "99999" then Some(Refusal(AtConfig("port"), "port must be 1 to 65535")) else None
  }

  function Plain(): Platform {
    Platform(
      PlainRules(), s => s, (_, _) => None, PortRule, _ => None, (_, _) => None, _ => true, (_, _) => true, _ => true, _ => true,
      _ => true, _ => true, _ => true, _ => true, _ => true)
  }

  lemma VerbsAreRead(v: Verb)
    ensures PlainVerb(VerbName(v)) == Some(v)
  {
    match v
    case Unset =>
    case GET =>
    case HEAD =>
    case POST =>
    case PUT =>
    case PATCH =>
    case DELETE =>
    case OPTIONS =>
  }

  lemma PlainIsLawful()
    ensures Lawful(PlainRules())
  {
    hide PlainVerb, VerbName, TrimSpace;
    forall v ensures PlainRules().verb(VerbName(v)) == Some(v) { VerbsAreRead(v); }
  }

  lemma PlainIsDependable()
    ensures Dependable(Plain())
  {
    hide Lawful, TrimSpaceFixed;
    PlainIsLawful();
  }

  /** A channel saved before the rule keeps its port through an edit that changes nothing of its settings, and
      is held to the rule by one that does. */
  lemma OldPortIsKept(c: Config, k: string, v: string)
    requires ValueOf(c, "port") == "99999" && k != "port" && ValueOf(c, k) != v
    ensures Settings(Plain(), Email, c, Some(Saved(Email, c))) == None
    ensures Settings(Plain(), Email, c[k := v], Some(Saved(Email, c))).Some?
  {
    assert c[k := v] != c;
  }
}
