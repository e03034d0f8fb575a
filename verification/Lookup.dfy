/**
 Finding the broker of a topic (`ServiceDiscovery::lookup_topic`).

 A query is answered by an address, by a redirect to another broker, or by an error; a broker that
 is not ready is asked again a limited number of times.  URL parsing is a parameter.
 */
module Lookup {
  import opened Prelude

  datatype Url = Url(text: string, host: Option<string>, port: Option<nat>)

  type Parser = string -> Option<Url>

  datatype HostPort = HostPort(host: string, port: nat)

  datatype BrokerAddress = BrokerAddress(url: Url, broker: HostPort, proxy: bool)

  /** The protocol's numbering of lookup answers and of the one error that is retried. */
  const REDIRECT := 0
  const FAILED := 2
  const SERVICE_NOT_READY := 6

  datatype Response = Response(
    response: Option<int>,
    error: Option<int>,
    proxyThroughServiceUrl: Option<bool>,
    authoritative: Option<bool>,
    brokerServiceUrl: Option<string>,
    brokerServiceUrlTls: Option<string>)

  datatype LookupError = NotFound | Query(error: Option<int>) | Connection | HostMissing

  datatype Converted = Converted(
    brokerUrl: Option<Url>,
    brokerUrlTls: Option<Url>,
    proxy: bool,
    redirect: bool,
    authoritative: bool)

  /** An absent URL is fine; one that does not parse is not. */
  function ParseOptional(parse: Parser, text: Option<string>): Result<Option<Url>, LookupError> {
    if text.None? then Ok(None)
    else match parse(text.value)
      case Some(u) => Ok(Some(u))
      case None => Err(NotFound)
  }

  function Flag(b: Option<bool>): bool {
    b == Some(true)
  }

  function Convert(parse: Parser, r: Response): Result<Converted, LookupError> {
    match ParseOptional(parse, r.brokerServiceUrl)
    case Err(e) => Err(e)
    case Ok(url) =>
      match ParseOptional(parse, r.brokerServiceUrlTls)
      case Err(e) => Err(e)
      case Ok(tls) =>
        Ok(Converted(url, tls, Flag(r.proxyThroughServiceUrl), r.response == Some(REDIRECT), Flag(r.authoritative)))
  }

  predicate Fails(r: Response) {
    r.response.None? || r.response == Some(FAILED)
  }

  /** The broker's own URL: TLS is preferred, with its own default port. */
  function OwnUrl(c: Converted): Option<(Url, nat)> {
    if c.brokerUrlTls.Some? then Some((c.brokerUrlTls.value, 6651))
    else if c.brokerUrl.Some? then Some((c.brokerUrl.value, 6650))
    else None
  }

  /** The address a response leads to: through a proxy, the base URL is dialed instead. */
  function Address(base: Url, proxied: bool, c: Converted): Result<BrokerAddress, LookupError> {
    match OwnUrl(c)
    case None => Err(NotFound)
    case Some((url, defaultPort)) =>
      if url.host.None? then Err(HostMissing)
      else
        var through := proxied || c.proxy;
        Ok(BrokerAddress(if through then base else url,
                         HostPort(url.host.value, if url.port.Some? then url.port.value else defaultPort),
                         through))
  }

  datatype Event =
    | Asked(to: BrokerAddress, authoritative: bool)
    | NotReady
    | Accepted(response: Converted)

  datatype Outcome = Running | Found(address: BrokerAddress) | Failed(error: LookupError)

  datatype State = State(
    proxied: bool,
    authoritative: bool,
    address: BrokerAddress,       // also where the current connection leads
    retries: nat,
    log: seq<Event>,
    outcome: Outcome)

  datatype Config = Config(base: Url, baseAddress: BrokerAddress, maxRetries: Option<nat>, parse: Parser)

  function Start(c: Config): State {
    State(false, false, c.baseAddress, 0, [], Running)
  }

  datatype Answer = Reply(response: Response) | Disconnected | QueryError

  /** What the network does during one round: a lost connection is reopened once and asked again. */
  datatype Round = Round(first: Answer, reopens: bool, second: Answer, connects: bool)

  function Fail(s: State, e: LookupError): State {
    s.(outcome := Failed(e))
  }

  function Ask(s: State): State {
    s.(log := s.log + [Asked(s.address, s.authoritative)])
  }

  /** A response that is not a failure. */
  function AcceptSpec(c: Config, s: State, r: Response, connects: bool): State {
    match Convert(c.parse, r)
    case Err(e) => Fail(s, e)
    case Ok(converted) =>
      match Address(c.base, s.proxied, converted)
      case Err(e) => Fail(s, e)
      case Ok(address) =>
        var s1 := s.(authoritative := converted.authoritative, log := s.log + [Accepted(converted)]);
        if !connects then Fail(s1, Connection)
        else if converted.redirect then s1.(address := address, proxied := address.proxy)
        else s1.(outcome := Found(address))
  }

  function ReplySpec(c: Config, s: State, r: Response, connects: bool): State {
    if !Fails(r) then AcceptSpec(c, s, r, connects)
    else if r.error == Some(SERVICE_NOT_READY) && (c.maxRetries.None? || c.maxRetries.value > s.retries) then
      s.(retries := s.retries + 1, log := s.log + [NotReady])
    else Fail(s, Query(r.error))
  }

  /** The queries of a round, and the answer that counts. */
  function QuerySpec(s: State, round: Round): (State, Answer) {
    if round.first.Disconnected? && round.reopens then (Ask(Ask(s)), round.second) else (Ask(s), round.first)
  }

  function Settle(c: Config, s: State, a: Answer, connects: bool): State {
    match a
    case Reply(r) => ReplySpec(c, s, r, connects)
    case _ => Fail(s, Connection)
  }

  function RoundSpec(c: Config, s: State, round: Round): State {
    var (s1, a) := QuerySpec(s, round);
    Settle(c, s1, a, round.connects)
  }

  function After(c: Config, rounds: seq<Round>): State {
    if rounds == [] then Start(c)
    else
      var s := After(c, Front(rounds));
      if s.outcome == Running then RoundSpec(c, s, Last(rounds)) else s
  }

  /** Once there is an outcome, further rounds change nothing. */
  lemma {:induction false} Stopped(c: Config, rounds: seq<Round>, n: nat)
    requires n <= |rounds|
    ensures After(c, rounds[..n]).outcome != Running ==> After(c, rounds) == After(c, rounds[..n])
  {
    if n < |rounds| {
      Stopped(c, Front(rounds), n);
      assert Front(rounds)[..n] == rounds[..n];
    } else {
      assert rounds[..n] == rounds;
    }
  }

  predicate AsksProxy(e: Event) {
    e.Accepted? && e.response.proxy
  }

  /** Some accepted response asked for a proxy. */
  predicate ProxyAsked(log: seq<Event>) {
    exists i :: 0 <= i < |log| && AsksProxy(log[i])
  }

  /** What the last accepted response said about authority; nobody did at first. */
  function LastAuthority(log: seq<Event>): bool {
    if log == [] then false
    else if Last(log).Accepted? then Last(log).response.authoritative
    else LastAuthority(Front(log))
  }

  function LastAccepted(log: seq<Event>): Option<Converted> {
    if log == [] then None
    else if Last(log).Accepted? then Some(Last(log).response)
    else LastAccepted(Front(log))
  }

  /** Where the accepted responses so far lead: the base address at first. */
  function Target(c: Config, log: seq<Event>): Result<BrokerAddress, LookupError> {
    match LastAccepted(log)
    case None => Ok(c.baseAddress)
    case Some(r) => Address(c.base, ProxyAsked(log), r)
  }

  function NotReadies(log: seq<Event>): nat {
    if log == [] then 0 else NotReadies(Front(log)) + if Last(log).NotReady? then 1 else 0
  }

  function Redirects(log: seq<Event>): nat {
    if log == [] then 0
    else Redirects(Front(log)) + if Last(log).Accepted? && Last(log).response.redirect then 1 else 0
  }

  /** Each query goes where the responses accepted before it lead, with the authority they gave. */
  ghost predicate QueriesFollow(c: Config, log: seq<Event>) {
    forall i :: 0 <= i < |log| && log[i].Asked? ==>
      log[i].authoritative == LastAuthority(log[..i]) && Target(c, log[..i]) == Ok(log[i].to)
  }

  ghost predicate Inv(c: Config, s: State) {
    && QueriesFollow(c, s.log)
    && NotReadies(s.log) == s.retries
    && (c.maxRetries.Some? ==> s.retries <= c.maxRetries.value)
    && (s.outcome == Running ==>
          && s.authoritative == LastAuthority(s.log)
          && s.proxied == ProxyAsked(s.log)
          && Target(c, s.log) == Ok(s.address))
    && (s.outcome.Found? ==> LastAccepted(s.log).Some? && Target(c, s.log) == Ok(s.outcome.address))
  }

  /** A URL that is there but does not parse. */
  predicate Unparsable(parse: Parser, text: Option<string>) {
    text.Some? && parse(text.value).None?
  }

  /** The URL that a response is followed to: the TLS one if it is there. */
  function Preferred(parse: Parser, r: Response): Option<Url> {
    if r.brokerServiceUrlTls.Some? then parse(r.brokerServiceUrlTls.value)
    else if r.brokerServiceUrl.Some? then parse(r.brokerServiceUrl.value)
    else None
  }

  /** The default port goes with the kind of URL. */
  function PortOf(url: Url, r: Response): nat {
    if url.port.Some? then url.port.value else if r.brokerServiceUrlTls.Some? then 6651 else 6650
  }

  /** The address that a response leads to, from its fields. */
  function Leads(c: Config, proxied: bool, r: Response): Result<BrokerAddress, LookupError> {
    if Unparsable(c.parse, r.brokerServiceUrl) || Unparsable(c.parse, r.brokerServiceUrlTls) then Err(NotFound)
    else match Preferred(c.parse, r)
      case None => Err(NotFound)
      case Some(url) =>
        if url.host.None? then Err(HostMissing)
        else
          var proxy := proxied || r.proxyThroughServiceUrl == Some(true);
          Ok(BrokerAddress(if proxy then c.base else url, HostPort(url.host.value, PortOf(url, r)), proxy))
  }

  lemma AddressByFields(c: Config, proxied: bool, r: Response)
    ensures Leads(c, proxied, r) ==
            match Convert(c.parse, r)
            case Err(e) => Err(e)
            case Ok(converted) => Address(c.base, proxied, converted)
  {
  }

  /**
   What an answer does, from its fields: an answer without a type or of type 2 is a failure, retried
   for error 6 as long as retries are left; type 0 is a redirect, followed if the broker can be
   reached; any other type ends the lookup with the address.
   */
  lemma RepliesByFields(c: Config, s: State, r: Response, connects: bool)
    requires s.outcome == Running
    ensures var s' := ReplySpec(c, s, r, connects);
            var to := Leads(c, s.proxied, r);
            if r.response.None? || r.response.value == 2 then
              if r.error == Some(6) && (c.maxRetries.Some? ==> s.retries < c.maxRetries.value) then
                s' == s.(retries := s.retries + 1, log := s.log + [NotReady])
              else s' == s.(outcome := Failed(Query(r.error)))
            else if to.Err? then s' == s.(outcome := Failed(to.error))
            else if !connects then s'.outcome == Failed(Connection)
            else if r.response.value == 0 then
              && s'.outcome == Running && s'.address == to.value && s'.proxied == to.value.proxy
              && s'.authoritative == (r.authoritative == Some(true)) && s'.retries == s.retries
            else s'.outcome == Found(to.value)
  {
    AddressByFields(c, s.proxied, r);
  }

  /**
   What a round does, from what the network does: it queries once, or again when the connection was
   lost and could be reopened; only the reply to its last query counts, and without one it fails.
   */
  lemma RoundsByAnswers(c: Config, s: State, round: Round)
    ensures var again := round.first == Disconnected && round.reopens;
            var asked := if again then Ask(Ask(s)) else Ask(s);
            var answer := if again then round.second else round.first;
            && asked.log == s.log + (if again then [Asked(s.address, s.authoritative), Asked(s.address, s.authoritative)]
                                     else [Asked(s.address, s.authoritative)])
            && (answer.Reply? ==> RoundSpec(c, s, round) == ReplySpec(c, asked, answer.response, round.connects))
            && (!answer.Reply? ==> RoundSpec(c, s, round) == asked.(outcome := Failed(Connection)))
  {
  }

  lemma LogSnoc(c: Config, log: seq<Event>, e: Event)
    ensures LastAuthority(log + [e]) == if e.Accepted? then e.response.authoritative else LastAuthority(log)
    ensures LastAccepted(log + [e]) == if e.Accepted? then Some(e.response) else LastAccepted(log)
    ensures NotReadies(log + [e]) == NotReadies(log) + if e.NotReady? then 1 else 0
    ensures Redirects(log + [e]) == Redirects(log) + if e.Accepted? && e.response.redirect then 1 else 0
    ensures ProxyAsked(log + [e]) <==> ProxyAsked(log) || AsksProxy(e)
    ensures !e.Accepted? ==> Target(c, log + [e]) == Target(c, log)
  {
  }

  lemma QueriesSnoc(c: Config, log: seq<Event>, e: Event)
    requires QueriesFollow(c, log)
    requires e.Asked? ==> e.authoritative == LastAuthority(log) && Target(c, log) == Ok(e.to)
    ensures QueriesFollow(c, log + [e])
  {
    var log' := log + [e];
    forall i | 0 <= i < |log'| && log'[i].Asked?
      ensures log'[i].authoritative == LastAuthority(log'[..i]) && Target(c, log'[..i]) == Ok(log'[i].to)
    {
      if i < |log| {
        assert log'[..i] == log[..i];
      } else {
        assert log'[..i] == log;
      }
    }
  }

  lemma AskKept(c: Config, s: State)
    requires Inv(c, s) && s.outcome == Running
    ensures Inv(c, Ask(s)) && Ask(s).outcome == Running
  {
    var e := Asked(s.address, s.authoritative);
    LogSnoc(c, s.log, e);
    QueriesSnoc(c, s.log, e);
  }

  /** Once a proxy was asked for, every later address goes through it. */
  lemma StickyAddress(c: Config, s: State, r: Converted)
    requires s.proxied == ProxyAsked(s.log) && Address(c.base, s.proxied, r).Ok?
    ensures Target(c, s.log + [Accepted(r)]) == Address(c.base, s.proxied, r)
    ensures Address(c.base, s.proxied, r).value.proxy == ProxyAsked(s.log + [Accepted(r)])
  {
    LogSnoc(c, s.log, Accepted(r));
  }

  lemma AcceptKept(c: Config, s: State, r: Response, connects: bool)
    requires Inv(c, s) && s.outcome == Running
    ensures Inv(c, AcceptSpec(c, s, r, connects))
  {
    var converted := Convert(c.parse, r);
    if converted.Ok? && Address(c.base, s.proxied, converted.value).Ok? {
      var e := Accepted(converted.value);
      LogSnoc(c, s.log, e);
      QueriesSnoc(c, s.log, e);
      StickyAddress(c, s, converted.value);
    }
  }

  lemma FailKept(c: Config, s: State, e: LookupError)
    requires Inv(c, s) && s.outcome == Running
    ensures Inv(c, Fail(s, e))
  {
  }

  lemma RetryKept(c: Config, s: State)
    requires Inv(c, s) && s.outcome == Running && (c.maxRetries.None? || c.maxRetries.value > s.retries)
    ensures Inv(c, s.(retries := s.retries + 1, log := s.log + [NotReady]))
  {
    LogSnoc(c, s.log, NotReady);
    QueriesSnoc(c, s.log, NotReady);
  }

  /** Whatever the answer, the loop's variables go on saying what the answers so far amount to. */
  lemma ReplyKept(c: Config, s: State, r: Response, connects: bool)
    requires Inv(c, s) && s.outcome == Running
    ensures Inv(c, ReplySpec(c, s, r, connects))
  {
    if !Fails(r) {
      AcceptKept(c, s, r, connects);
    } else if r.error == Some(SERVICE_NOT_READY) && (c.maxRetries.None? || c.maxRetries.value > s.retries) {
      RetryKept(c, s);
    } else {
      FailKept(c, s, Query(r.error));
    }
  }

  lemma SettleKept(c: Config, s: State, a: Answer, connects: bool)
    requires Inv(c, s) && s.outcome == Running
    ensures Inv(c, Settle(c, s, a, connects))
  {
    match a
    case Reply(r) => ReplyKept(c, s, r, connects);
    case _ => FailKept(c, s, Connection);
  }

  lemma QueryKept(c: Config, s: State, round: Round)
    requires Inv(c, s) && s.outcome == Running
    ensures Inv(c, QuerySpec(s, round).0) && QuerySpec(s, round).0.outcome == Running
  {
    AskKept(c, s);
    AskKept(c, Ask(s));
  }

  lemma RoundKept(c: Config, s: State, round: Round)
    requires Inv(c, s) && s.outcome == Running
    ensures Inv(c, RoundSpec(c, s, round))
  {
    QueryKept(c, s, round);
    var (s1, a) := QuerySpec(s, round);
    SettleKept(c, s1, a, round.connects);
  }

  lemma {:induction false} LookupInv(c: Config, rounds: seq<Round>)
    ensures Inv(c, After(c, rounds))
  {
    if rounds == [] {
    } else {
      LookupInv(c, Front(rounds));
      var s := After(c, Front(rounds));
      if s.outcome == Running {
        RoundKept(c, s, Last(rounds));
      }
    }
  }

  lemma {:induction false} LastAcceptedAsks(log: seq<Event>)
    ensures LastAccepted(log).Some? && LastAccepted(log).value.proxy ==> ProxyAsked(log)
  {
    if log == [] {
    } else {
      if Last(log).Accepted? {
        assert AsksProxy(log[|log| - 1]) <==> Last(log).response.proxy;
      } else {
        LastAcceptedAsks(Front(log));
        if ProxyAsked(Front(log)) {
          var i :| 0 <= i < |Front(log)| && AsksProxy(Front(log)[i]);
          assert AsksProxy(log[i]);
        }
      }
    }
  }

  lemma AddressFacts(base: Url, proxied: bool, r: Converted)
    ensures Address(base, proxied, r).Ok? ==>
              var a := Address(base, proxied, r).value;
              && OwnUrl(r).Some? && OwnUrl(r).value.0.host == Some(a.broker.host)
              && a.proxy == (proxied || r.proxy)
              && a.url == if a.proxy then base else OwnUrl(r).value.0
  {
  }

  /**
   The address found goes through a proxy exactly when some accepted response asked for one; then it
   dials the base URL, and otherwise the URL of the last response; its broker is the last response's.
   */
  lemma FoundAddressIsSticky(c: Config, rounds: seq<Round>)
    requires After(c, rounds).outcome.Found?
    ensures var log, found := After(c, rounds).log, After(c, rounds).outcome.address;
            && LastAccepted(log).Some? && OwnUrl(LastAccepted(log).value).Some?
            && (found.proxy <==> ProxyAsked(log))
            && (found.proxy ==> found.url == c.base)
            && (!found.proxy ==> found.url == OwnUrl(LastAccepted(log).value).value.0)
            && OwnUrl(LastAccepted(log).value).value.0.host == Some(found.broker.host)
  {
    LookupInv(c, rounds);
    var log := After(c, rounds).log;
    LastAcceptedAsks(log);
    AddressFacts(c.base, ProxyAsked(log), LastAccepted(log).value);
  }

  /** Every query follows the responses accepted before it, and retries stay within their limit. */
  lemma QueriesAndRetries(c: Config, rounds: seq<Round>)
    ensures QueriesFollow(c, After(c, rounds).log)
    ensures c.maxRetries.Some? ==> NotReadies(After(c, rounds).log) <= c.maxRetries.value
  {
    LookupInv(c, rounds);
  }

  function Progress(s: State): nat {
    NotReadies(s.log) + Redirects(s.log)
  }

  lemma AskMakesNone(c: Config, s: State)
    ensures Progress(Ask(s)) == Progress(s)
  {
  }

  lemma ReplyMakesOne(c: Config, s: State, r: Response, connects: bool)
    requires s.outcome == Running && ReplySpec(c, s, r, connects).outcome == Running
    ensures Progress(ReplySpec(c, s, r, connects)) == Progress(s) + 1
  {
    LogSnoc(c, s.log, NotReady);
    var converted := Convert(c.parse, r);
    if converted.Ok? {
      LogSnoc(c, s.log, Accepted(converted.value));
    }
  }

  /** A round that does not end the lookup is a retry or a redirect. */
  lemma RoundCounts(c: Config, s: State, round: Round)
    requires s.outcome == Running && RoundSpec(c, s, round).outcome == Running
    ensures Progress(RoundSpec(c, s, round)) == Progress(s) + 1
  {
    AskMakesNone(c, s);
    AskMakesNone(c, Ask(s));
    var (s1, a) := QuerySpec(s, round);
    ReplyMakesOne(c, s1, a.response, round.connects);
  }

  /** The lookup has gone through exactly as many rounds as it met retries and redirects. */
  lemma {:induction false} RoundsAreRetriesAndRedirects(c: Config, rounds: seq<Round>)
    requires After(c, rounds).outcome == Running
    ensures |rounds| == NotReadies(After(c, rounds).log) + Redirects(After(c, rounds).log)
    ensures c.maxRetries.Some? ==> |rounds| <= c.maxRetries.value + Redirects(After(c, rounds).log)
  {
    LookupInv(c, rounds);
    if rounds == [] {
    } else {
      RoundsAreRetriesAndRedirects(c, Front(rounds));
      RoundCounts(c, After(c, Front(rounds)), Last(rounds));
    }
  }

  /** The loop variables after an answer. */
  method TakeReply(c: Config, s: State, response: Response, connects: bool) returns (s': State)
    ensures s' == ReplySpec(c, s, response, connects)
  {
    s' := s;
    if Fails(response) {
      if response.error == Some(SERVICE_NOT_READY) && (c.maxRetries.None? || c.maxRetries.value > s'.retries) {
        s' := s'.(retries := s'.retries + 1, log := s'.log + [NotReady]);
      } else {
        s' := s'.(outcome := Failed(Query(response.error)));
      }
      return;
    }
    var converted := Convert(c.parse, response);
    if converted.Err? {
      return s'.(outcome := Failed(converted.error));
    }
    var address := Address(c.base, s'.proxied, converted.value);
    if address.Err? {
      return s'.(outcome := Failed(address.error));
    }
    s' := s'.(authoritative := converted.value.authoritative, log := s'.log + [Accepted(converted.value)]);
    if !connects {
      s' := s'.(outcome := Failed(Connection));
    } else if converted.value.redirect {
      s' := s'.(address := address.value);
      s' := s'.(proxied := s'.address.proxy);
    } else {
      s' := s'.(outcome := Found(address.value));
    }
  }

  /** The lookup loop; it stops as soon as it has an outcome. */
  method LookupTopic(c: Config, rounds: seq<Round>) returns (outcome: Outcome, log: seq<Event>)
    ensures outcome == After(c, rounds).outcome && log == After(c, rounds).log
    ensures QueriesFollow(c, log) && (c.maxRetries.Some? ==> NotReadies(log) <= c.maxRetries.value)
    ensures outcome.Found? ==> (outcome.address.proxy <==> ProxyAsked(log))
    ensures outcome == Running ==> |rounds| == NotReadies(log) + Redirects(log)
  {
    QueriesAndRetries(c, rounds);
    if After(c, rounds).outcome.Found? {
      FoundAddressIsSticky(c, rounds);
    } else if After(c, rounds).outcome == Running {
      RoundsAreRetriesAndRedirects(c, rounds);
    }
    var s := Start(c);
    for i := 0 to |rounds|
      invariant s == After(c, rounds[..i]) && s.outcome == Running
    {
      assert Front(rounds[..i + 1]) == rounds[..i] && Last(rounds[..i + 1]) == rounds[i];
      var round := rounds[i];
      s := Ask(s);
      var answer := round.first;
      if answer.Disconnected? && round.reopens {
        s := Ask(s);
        answer := round.second;
      }
      if answer.Reply? {
        s := TakeReply(c, s, answer.response, round.connects);
      } else {
        s := Fail(s, Connection);
      }
      if s.outcome != Running {
        Stopped(c, rounds, i + 1);
        return s.outcome, s.log;
      }
    }
    assert rounds[..|rounds|] == rounds;
    return s.outcome, s.log;
  }
}
