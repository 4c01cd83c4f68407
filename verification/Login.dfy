/** The login conversation of nc_auth: a client and a server machine over a FIFO
    channel, with credentials supplied, declined or late. */
module Login {
  import opened Wrappers

  const MAX_USER := 64
  const MAX_PASS := 128
  const MAX_TRIES := 6

  type Key = nat

  /** A method mask: the two known bits and the numbers of any other bits set. */
  datatype Mask = Mask(pk: bool, pw: bool, other: set<nat>)

  const NONE := Mask(false, false, {})

  function And(a: Mask, b: Mask): Mask { Mask(a.pk && b.pk, a.pw && b.pw, a.other * b.other) }

  /** A mask as carried in one byte. */
  function Byte(m: Mask): Mask { m.(other := set b | b in m.other && b < 8) }

  /** A signature by the secret half of `signer` over the digest of session, name and key. */
  datatype Sig = Sig(signer: Key, sid: nat, user: string, pk: Key)

  datatype Message =
    | Hello(user: string)
    | Methods(mask: Mask)
    | PubKey(pk: Key, sig: Sig)
    | Password(password: string)
    | Accept
    | Fail(left: Mask)
    | Junk

  datatype State = Pending | Granted | Denied
  datatype Need = Nothing | NeedKey | NeedPassword

  datatype Client = Client(state: State, need: Need, avail: Mask, sid: nat, user: string)

  datatype Server = Server(state: State, greeted: bool, avail: Mask, tries: nat, sid: nat, user: string)

  /** The server's callbacks. */
  datatype Policy = Policy(methods: string -> Mask, checkKey: (string, Key) -> bool,
      checkPassword: (string, string) -> bool)

  // ----- client -----

  function NewClient(sid: nat, user: string): Client {
    Client(Pending, Nothing, NONE, sid, if |user| > MAX_USER then user[..MAX_USER] else user)
  }

  /** client_try_next: pick the best method left and drop it from the list. */
  function TryNext(c: Client): Client {
    if c.state != Pending then c
    else if c.avail.pk then c.(avail := c.avail.(pk := false), need := NeedKey)
    else if c.avail.pw then c.(avail := c.avail.(pw := false), need := NeedPassword)
    else c.(need := Nothing, state := Denied)
  }

  /** nc_auth_supply_key: a key pair, or nothing. `signer` is the secret actually used. */
  function SupplyKey(c: Client, key: Option<(Key, Key)>): (r: (Client, seq<Message>)) {
    if c.need != NeedKey then (c, [])
    else
      var c1 := c.(need := Nothing);
      match key
      case None => (TryNext(c1), [])
      case Some(k) => (c1, [PubKey(k.1, Sig(k.0, c.sid, c.user, k.1))])
  }

  /** nc_auth_supply_password: too long a password counts as none. */
  function SupplyPassword(c: Client, password: Option<string>): (r: (Client, seq<Message>)) {
    if c.need != NeedPassword then (c, [])
    else
      var c1 := c.(need := Nothing);
      match password
      case None => (TryNext(c1), [])
      case Some(p) => if |p| > MAX_PASS - 1 then (TryNext(c1), []) else (c1, [Password(p)])
  }

  /** nc_auth_start. */
  function Start(c: Client): seq<Message> {
    if c.state == Pending then [Hello(c.user)] else []
  }

  /** nc_auth_feed at the client. */
  function ClientFeed(c: Client, m: Message): Client {
    if c.state != Pending then c
    else match m
      case Methods(mask) =>
        var c1 := c.(avail := mask);
        if mask == NONE then c1.(state := Denied) else TryNext(c1)
      case Accept => c.(state := Granted)
      case Fail(left) => TryNext(c.(avail := And(c.avail, left)))
      case _ => c.(state := Denied)
  }

  // ----- server -----

  function NewServer(sid: nat): Server { Server(Pending, false, NONE, 0, sid, "") }

  /** server_deny. */
  function Deny(s: Server, spent: Mask): (r: (Server, seq<Message>)) {
    var left := Mask(s.avail.pk && !spent.pk, s.avail.pw && !spent.pw, s.avail.other - spent.other);
    var s1 := s.(avail := left, tries := s.tries + 1);
    var s2 := if s1.tries >= MAX_TRIES || left == NONE then s1.(avail := NONE, state := Denied) else s1;
    (s2, [Fail(Byte(s2.avail))])
  }

  predicate KeyAccepted(p: Policy, s: Server, pk: Key, sig: Sig) {
    sig == Sig(pk, s.sid, s.user, pk) && p.checkKey(s.user, pk)
  }

  /** nc_auth_feed at the server. */
  function ServerFeed(p: Policy, s: Server, m: Message): (r: (Server, seq<Message>)) {
    if s.state != Pending then (s, [])
    else match m
      case Hello(user) =>
        if s.greeted || |user| > MAX_USER then (s.(state := Denied), [])
        else
          var avail := p.methods(user);
          (s.(user := user, greeted := true, avail := avail, state := if avail == NONE then Denied else Pending),
           [Methods(Byte(avail))])
      case PubKey(pk, sig) =>
        if !s.greeted then (s.(state := Denied), [])
        else if !s.avail.pk then Deny(s, NONE)
        else if KeyAccepted(p, s, pk, sig) then (s.(state := Granted), [Accept])
        else Deny(s, Mask(true, false, {}))
      case Password(pass) =>
        if !s.greeted || |pass| > MAX_PASS - 1 then (s.(state := Denied), [])
        else if !s.avail.pw then Deny(s, NONE)
        else if p.checkPassword(s.user, pass) then (s.(state := Granted), [Accept])
        else Deny(s, Mask(false, true, {}))
      case _ => (s.(state := Denied), [])
  }

  // ----- the two over FIFO queues -----

  /** `starts` counts the greetings sent, `keys` and `passwords` the credential messages;
      `offered` is what METHODS carried; `accepted` is the credential the server let in. */
  datatype Login = Login(
    c: Client, s: Server, c2s: seq<Message>, s2c: seq<Message>,
    starts: nat, keys: nat, passwords: nat, offered: Mask, accepted: Option<Message>)

  datatype Event =
    | Begin
    | GiveKey(key: Option<(Key, Key)>)
    | GivePassword(password: Option<string>)
    | ClientHears
    | ServerHears

  function Count(ms: seq<Message>, key: bool): nat {
    if ms == [] then 0
    else Count(ms[1..], key) + if (if key then ms[0].PubKey? else ms[0].Password?) then 1 else 0
  }

  function Sent(l: Login, c: Client, ms: seq<Message>): Login {
    l.(c := c, c2s := l.c2s + ms, keys := l.keys + Count(ms, true), passwords := l.passwords + Count(ms, false))
  }

  function Happen(p: Policy, l: Login, e: Event): Login {
    match e
    case Begin => Sent(l, l.c, Start(l.c)).(starts := l.starts + 1)
    case GiveKey(key) => var (c, ms) := SupplyKey(l.c, key); Sent(l, c, ms)
    case GivePassword(password) => var (c, ms) := SupplyPassword(l.c, password); Sent(l, c, ms)
    case ClientHears =>
      if l.s2c == [] then l else l.(c := ClientFeed(l.c, l.s2c[0]), s2c := l.s2c[1..])
    case ServerHears =>
      if l.c2s == [] then l
      else
        var (s, ms) := ServerFeed(p, l.s, l.c2s[0]);
        l.(s := s, c2s := l.c2s[1..], s2c := l.s2c + ms,
           offered := if ms != [] && ms[0].Methods? then ms[0].mask else l.offered,
           accepted := if ms == [Accept] then Some(l.c2s[0]) else l.accepted)
  }

  function Run(p: Policy, l: Login, es: seq<Event>): Login {
    if es == [] then l else Happen(p, Run(p, l, es[..|es| - 1]), es[|es| - 1])
  }

  function Initial(sid: nat, user: string): Login {
    Login(NewClient(sid, user), NewServer(sid), [], [], 0, 0, 0, NONE, None)
  }

  // ----- the invariant -----

  predicate IsCredential(m: Message) { m.PubKey? || m.Password? }

  predicate NoCredential(ms: seq<Message>) { forall i :: 0 <= i < |ms| ==> !IsCredential(ms[i]) }

  /** Only this client's greetings, and at most one credential. */
  predicate ClientQueue(l: Login) {
    && (forall i :: 0 <= i < |l.c2s| ==> l.c2s[i] == Hello(l.c.user) || IsCredential(l.c2s[i]))
    && (forall i, j :: 0 <= i < j < |l.c2s| ==> !(IsCredential(l.c2s[i]) && IsCredential(l.c2s[j])))
    && (forall i :: 0 <= i < |l.c2s| && IsCredential(l.c2s[i]) ==> l.s.greeted)
  }

  /** While the client waits for an answer it asks for nothing. */
  predicate Turns(l: Login) {
    && |l.s2c| <= 1
    && (l.s2c != [] ==> NoCredential(l.c2s) && l.c.need == Nothing && l.c.state == Pending)
    && (!NoCredential(l.c2s) ==> l.c.need == Nothing && l.c.state == Pending)
    && (l.c.state != Pending ==> l.c.need == Nothing)
  }

  predicate Outcomes(l: Login) {
    && (l.s.state == Granted ==> l.c.state == Granted || l.s2c == [Accept])
    && (l.c.state == Granted ==> l.s.state == Granted)
    && (l.s2c == [Accept] ==> l.s.state == Granted)
    && (l.s.greeted ==> l.s.user == l.c.user)
    && (!l.s.greeted ==> l.s2c == [] && l.s.state != Granted && l.c.state == Pending)
    && l.s.sid == l.c.sid && |l.c.user| <= MAX_USER
  }

  /** Each method is asked for, and sent, at most once, and only if offered. */
  predicate Budget(l: Login) {
    && l.keys <= 1 && l.passwords <= 1
    && (l.c.avail.pk || l.c.need == NeedKey ==> l.keys == 0 && l.offered.pk)
    && (l.c.avail.pw || l.c.need == NeedPassword ==> l.passwords == 0 && l.offered.pw)
    && !(l.c.avail.pk && l.c.need == NeedKey) && !(l.c.avail.pw && l.c.need == NeedPassword)
    && (l.keys > 0 ==> l.offered.pk) && (l.passwords > 0 ==> l.offered.pw)
    && (!l.s.greeted ==> l.c.avail == NONE && l.c.need == Nothing && l.keys == 0 && l.passwords == 0)
    && (l.s2c != [] && l.s2c[0].Methods? ==>
          l.s2c[0].mask == l.offered && l.c.avail == NONE && l.keys == 0 && l.passwords == 0)
  }

  /** The credential let in was good for the server's user. */
  predicate Checked(p: Policy, l: Login) {
    l.s.state == Granted ==> l.accepted.Some? && CredentialGood(p, l.s, l.accepted.value)
  }

  predicate CredentialGood(p: Policy, s: Server, m: Message) {
    match m
    case PubKey(pk, sig) => KeyAccepted(p, s, pk, sig)
    case Password(pass) => p.checkPassword(s.user, pass)
    case _ => false
  }

  predicate Inv(p: Policy, l: Login) {
    ClientQueue(l) && Turns(l) && Outcomes(l) && Budget(l) && Checked(p, l)
  }

  lemma HappenKeeps(p: Policy, l: Login, e: Event)
    requires Inv(p, l)
    ensures Inv(p, Happen(p, l, e))
  {
    match e
    case Begin => BeginKeeps(p, l);
    case GiveKey(key) => KeyKeeps(p, l, key);
    case GivePassword(password) => PasswordKeeps(p, l, password);
    case ClientHears => ClientKeeps(p, l);
    case ServerHears => ServerKeeps(p, l);
  }

  lemma CountOne(m: Message, key: bool)
    ensures Count([], key) == 0
    ensures Count([m], key) == if (if key then m.PubKey? else m.Password?) then 1 else 0
  {}

  lemma BeginKeeps(p: Policy, l: Login)
    requires Inv(p, l)
    ensures Inv(p, Happen(p, l, Begin))
  {
    CountOne(Hello(l.c.user), true);
    CountOne(Hello(l.c.user), false);
    var l' := Happen(p, l, Begin);
    assert NoCredential(l.c2s) ==> NoCredential(l'.c2s);
    assert NoCredential(l'.c2s) ==> NoCredential(l.c2s) by {
      if NoCredential(l'.c2s) {
        forall i | 0 <= i < |l.c2s| ensures !IsCredential(l.c2s[i]) { assert l'.c2s[i] == l.c2s[i]; }
      }
    }
  }

  lemma KeyKeeps(p: Policy, l: Login, key: Option<(Key, Key)>)
    requires Inv(p, l)
    ensures Inv(p, Happen(p, l, GiveKey(key)))
  {
    if l.c.need == NeedKey {
      assert NoCredential(l.c2s);
      var (c, ms) := SupplyKey(l.c, key);
      if ms != [] { CountOne(ms[0], true); CountOne(ms[0], false); assert ms == [ms[0]]; }
    }
    assert l.c2s + [] == l.c2s;
  }

  lemma PasswordKeeps(p: Policy, l: Login, password: Option<string>)
    requires Inv(p, l)
    ensures Inv(p, Happen(p, l, GivePassword(password)))
  {
    if l.c.need == NeedPassword {
      assert NoCredential(l.c2s);
      var (c, ms) := SupplyPassword(l.c, password);
      if ms != [] { CountOne(ms[0], true); CountOne(ms[0], false); assert ms == [ms[0]]; }
    }
    assert l.c2s + [] == l.c2s;
  }

  lemma ClientKeeps(p: Policy, l: Login)
    requires Inv(p, l)
    ensures Inv(p, Happen(p, l, ClientHears))
  {}

  lemma ServerKeeps(p: Policy, l: Login)
    requires Inv(p, l)
    ensures Inv(p, Happen(p, l, ServerHears))
  {
    if l.c2s != [] {
      var m, rest := l.c2s[0], l.c2s[1..];
      assert forall i :: 0 <= i < |rest| ==> rest[i] == l.c2s[i + 1];
      if l.s.state != Pending {
        IgnoredKeeps(p, l);
      } else if IsCredential(m) {
        assert NoCredential(rest);
        CredentialKeeps(p, l);
      } else {
        GreetingKeeps(p, l);
      }
    }
  }

  /** Taking the head off the client's queue. */
  lemma TailKeeps(l: Login, l': Login)
    requires l.c2s != [] && ClientQueue(l)
    requires l'.c2s == l.c2s[1..] && l'.c == l.c && (l.s.greeted ==> l'.s.greeted)
    ensures ClientQueue(l')
    ensures IsCredential(l.c2s[0]) ==> NoCredential(l'.c2s)
    ensures NoCredential(l.c2s) ==> NoCredential(l'.c2s)
    ensures !IsCredential(l.c2s[0]) ==> (NoCredential(l.c2s) <==> NoCredential(l'.c2s))
  {
    assert forall i :: 0 <= i < |l'.c2s| ==> l'.c2s[i] == l.c2s[i + 1];
    if NoCredential(l'.c2s) && !IsCredential(l.c2s[0]) {
      forall i | 0 <= i < |l.c2s| ensures !IsCredential(l.c2s[i]) {
        if i > 0 { assert l.c2s[i] == l'.c2s[i - 1]; }
      }
    }
  }

  lemma IgnoredKeeps(p: Policy, l: Login)
    requires Inv(p, l) && l.c2s != [] && l.s.state != Pending
    ensures Inv(p, Happen(p, l, ServerHears))
  {
    var l' := Happen(p, l, ServerHears);
    assert l' == l.(c2s := l.c2s[1..]);
    TailKeeps(l, l');
    hide ClientQueue;
    hide NoCredential;
  }

  lemma GreetingKeeps(p: Policy, l: Login)
    requires Inv(p, l) && l.c2s != [] && l.s.state == Pending && !IsCredential(l.c2s[0])
    ensures Inv(p, Happen(p, l, ServerHears))
  {
    var l' := Happen(p, l, ServerHears);
    TailKeeps(l, l');
    assert l.c2s[0] == Hello(l.c.user);
    assert !l.s.greeted ==> NoCredential(l.c2s);
    hide ClientQueue;
    hide NoCredential;
  }

  lemma CredentialKeeps(p: Policy, l: Login)
    requires Inv(p, l) && l.c2s != [] && l.s.state == Pending && IsCredential(l.c2s[0])
    ensures Inv(p, Happen(p, l, ServerHears))
  {
    var l' := Happen(p, l, ServerHears);
    TailKeeps(l, l');
    assert l.s.greeted && !NoCredential(l.c2s);
    hide ClientQueue;
    hide NoCredential;
    hide CredentialGood;
    CredentialAnswer(p, l.s, l.c2s[0]);
    hide ServerFeed;
    assert l.s2c == [];
  }

  /** The method of the credential is one the server still offers. */
  predicate StillOffered(s: Server, m: Message) { (m.PubKey? && s.avail.pk) || (m.Password? && s.avail.pw) }

  /** What a greeted server makes of a credential: it lets the client in if and only if the
      method is still on offer, the credential is good and a password is not too long; it
      hangs up on a password that is; and otherwise it says what is left, which the method
      tried is not part of. */
  lemma CredentialAnswer(p: Policy, s: Server, m: Message)
    requires s.state == Pending && s.greeted && IsCredential(m)
    ensures var (s', ms) := ServerFeed(p, s, m);
      && s'.user == s.user && s'.sid == s.sid && s'.greeted
      && (s'.state == Granted <==> StillOffered(s, m) && CredentialGood(p, s, m) && WellSized(m))
      && (s'.state == Granted <==> ms == [Accept])
      && (s'.state == Granted ==> CredentialGood(p, s', m))
      && (ms == [] <==> !WellSized(m)) && (!WellSized(m) ==> s'.state == Denied)
      && (s'.state != Granted && WellSized(m) ==> ms == [Fail(Byte(s'.avail))] && !StillOffered(s', m))
      && (s'.avail.pk ==> s.avail.pk) && (s'.avail.pw ==> s.avail.pw)
  {}

  lemma {:induction false} RunKeeps(p: Policy, l: Login, es: seq<Event>)
    requires Inv(p, l) && Live(l)
    ensures Inv(p, Run(p, l, es)) && Live(Run(p, l, es))
  {
    if es != [] {
      var k := Run(p, l, es[..|es| - 1]);
      RunKeeps(p, l, es[..|es| - 1]);
      HappenKeeps(p, k, es[|es| - 1]);
      HappenLive(p, k, es[|es| - 1]);
    }
  }

  // ----- no deadlock -----

  predicate WellSized(m: Message) { m.Password? ==> |m.password| <= MAX_PASS - 1 }

  /** A conversation started once always has something left to do until the client knows:
      a greeting or a credential under way to a listening server, an answer under way
      back, or a question to the application. */
  predicate Live(l: Login) {
    l.starts <= 1 ==>
      && (l.starts == 0 ==> l.c2s == [] && !l.s.greeted && l.s.state == Pending)
      && (l.starts == 1 && !l.s.greeted ==> l.c2s == [Hello(l.c.user)] && l.s.state == Pending)
      && (l.s.greeted ==> l.c2s == [] || (|l.c2s| == 1 && IsCredential(l.c2s[0]) && WellSized(l.c2s[0])))
      && (l.s.greeted && l.c.state == Pending && l.c.need == Nothing ==> l.c2s != [] || l.s2c != [])
      && (l.s.greeted && l.s.state == Denied && l.c.state == Pending ==> Refusal(l.s2c))
  }

  predicate Refusal(ms: seq<Message>) { ms == [Methods(NONE)] || ms == [Fail(NONE)] }

  lemma HappenLive(p: Policy, l: Login, e: Event)
    requires Inv(p, l) && Live(l)
    ensures Live(Happen(p, l, e))
  {
    match e
    case ServerHears =>
      if l.c2s != [] && l.starts == 1 { ServerLive(p, l); }
    case ClientHears => ClientLive(p, l);
    case GiveKey(key) => KeyLive(p, l, key);
    case GivePassword(password) => PasswordLive(p, l, password);
    case Begin =>
  }

  lemma KeyLive(p: Policy, l: Login, key: Option<(Key, Key)>)
    requires Inv(p, l) && Live(l)
    ensures Live(Happen(p, l, GiveKey(key)))
  {
    hide ServerFeed;
    assert l.c.need == NeedKey ==> l.s.greeted && l.c.state == Pending;
    assert l.c2s != [] && l.s.greeted && l.starts == 1 ==> !NoCredential(l.c2s);
    assert l.c2s + [] == l.c2s;
  }

  lemma PasswordLive(p: Policy, l: Login, password: Option<string>)
    requires Inv(p, l) && Live(l)
    ensures Live(Happen(p, l, GivePassword(password)))
  {
    hide ServerFeed;
    assert l.c.need == NeedPassword ==> l.s.greeted && l.c.state == Pending;
    assert l.c2s != [] && l.s.greeted && l.starts == 1 ==> !NoCredential(l.c2s);
    assert l.c2s + [] == l.c2s;
  }

  lemma ServerLive(p: Policy, l: Login)
    requires Inv(p, l) && Live(l) && l.c2s != [] && l.starts == 1
    ensures Live(Happen(p, l, ServerHears))
  {
    assert l.c2s[1..] == [];
    assert Byte(NONE) == NONE;
    if l.s.greeted {
      assert !NoCredential(l.c2s);
      assert l.s.state == Pending;
      ServerAnswers(p, l.s, l.c2s[0]);
      hide ServerFeed, Deny;
    }
  }

  /** A listening, greeted server answers every credential, and a final no says so. */
  lemma ServerAnswers(p: Policy, s: Server, m: Message)
    requires s.state == Pending && s.greeted && IsCredential(m) && WellSized(m)
    ensures var (s', ms) := ServerFeed(p, s, m);
      s'.greeted && |ms| == 1 && (s'.state == Denied ==> Refusal(ms))
  {
    assert Byte(NONE) == NONE;
  }

  lemma ClientLive(p: Policy, l: Login)
    requires Inv(p, l) && Live(l)
    ensures Live(Happen(p, l, ClientHears))
  {
    if l.s2c != [] {
      var c := ClientFeed(l.c, l.s2c[0]);
      assert l.s2c == [l.s2c[0]];
      assert c.state == Pending ==> c.need != Nothing;
      assert l.s2c[1..] == [];
    }
  }

  // ----- what every run promises -----

  lemma InitialHolds(p: Policy, sid: nat, user: string)
    ensures Inv(p, Initial(sid, user)) && Live(Initial(sid, user))
  {}

  /** The two ends never disagree on a success, and each credential is sent at most once. */
  lemma LoginAgrees(p: Policy, sid: nat, user: string, es: seq<Event>)
    ensures var l := Run(p, Initial(sid, user), es);
      && (l.c.state == Granted ==> l.s.state == Granted && l.s.user == l.c.user)
      && (l.c.state == Denied ==> l.s.state != Granted)
      && (l.s.state == Granted ==> l.accepted.Some? && CredentialGood(p, l.s, l.accepted.value) && l.s.user == l.c.user)
      && l.keys <= (if l.offered.pk then 1 else 0)
      && l.passwords <= (if l.offered.pw then 1 else 0)
  {
    InitialHolds(p, sid, user);
    RunKeeps(p, Initial(sid, user), es);
  }

  /** Started once, the conversation is over for the client as soon as nothing is under way
      and nothing is asked of the application. */
  lemma NeverStuck(p: Policy, sid: nat, user: string, es: seq<Event>)
    ensures var l := Run(p, Initial(sid, user), es);
      l.starts == 1 && l.c2s == [] && l.s2c == [] && l.c.need == Nothing ==> l.c.state != Pending
  {
    InitialHolds(p, sid, user);
    RunKeeps(p, Initial(sid, user), es);
  }

  /** Begun, nothing under way, nothing asked, and the client none the wiser. */
  predicate Stuck(l: Login) {
    l.starts >= 1 && l.c2s == [] && l.s2c == [] && l.c.need == Nothing && l.c.state == Pending
  }

  /** The policy offers this user a key or a password. */
  predicate Offers(p: Policy, user: string) { p.methods(user).pk || p.methods(user).pw }

  /** A conversation can be stuck for ever exactly when the policy has a method to offer: a
      second greeting closes the server without an answer, and the credential sent after
      it goes unheard. Otherwise the first answer decides it. */
  lemma StuckExactly(p: Policy, sid: nat, user: string)
    ensures (exists es :: Stuck(Run(p, Initial(sid, user), es))) <==> Offers(p, NewClient(sid, user).user)
  {
    if Offers(p, NewClient(sid, user).user) {
      var es := SecondStartSticks(p, sid, user);
      assert Stuck(Run(p, Initial(sid, user), es));
    } else {
      forall es ensures !Stuck(Run(p, Initial(sid, user), es)) {
        RunBarren(p, Initial(sid, user), es);
      }
    }
  }

  /** The run that sticks, for every policy with something to offer and every user. */
  lemma SecondStartSticks(p: Policy, sid: nat, user: string) returns (es: seq<Event>)
    requires Offers(p, NewClient(sid, user).user)
    ensures Stuck(Run(p, Initial(sid, user), es)) && Run(p, Initial(sid, user), es).starts == 2
  {
    var l0 := Initial(sid, user);
    var u := l0.c.user;
    var mask := Byte(p.methods(u));
    var l2 := Happen(p, Happen(p, l0, Begin), Begin);
    assert l2.c2s == [Hello(u), Hello(u)];
    var l4 := Happen(p, Happen(p, l2, ServerHears), ServerHears);
    assert l4.c2s == [] && l4.s2c == [Methods(mask)] && l4.s.state == Denied;
    var l5 := Happen(p, l4, ClientHears);
    assert l5.s2c == [] && l5.c.state == Pending && l5.c.need == if mask.pk then NeedKey else NeedPassword;
    var give := if mask.pk then GiveKey(Some((0, 0))) else GivePassword(Some(""));
    var l6 := Happen(p, l5, give);
    assert |l6.c2s| == 1 && l6.c.need == Nothing;
    var l7 := Happen(p, l6, ServerHears);
    assert l7.c2s == [] && Stuck(l7);
    es := [Begin, Begin, ServerHears, ServerHears, ClientHears, give, ServerHears];
    RunSeven(p, l0, es);
  }

  lemma RunSeven(p: Policy, l: Login, es: seq<Event>)
    requires |es| == 7
    ensures Run(p, l, es)
         == Happen(p, Happen(p, Happen(p, Happen(p, Happen(p, Happen(p, Happen(p, l, es[0]), es[1]), es[2]), es[3]),
             es[4]), es[5]), es[6])
  {
    hide Happen;
    assert es[..6][..5] == es[..5] && es[..5][..4] == es[..4] && es[..4][..3] == es[..3];
    assert es[..3][..2] == es[..2] && es[..2][..1] == es[..1] && es[..1][..0] == [];
    RunSteps(p, l, es);
    RunSteps(p, l, es[..6]);
    RunSteps(p, l, es[..5]);
    RunSteps(p, l, es[..4]);
    RunSteps(p, l, es[..3]);
    RunSteps(p, l, es[..2]);
    RunSteps(p, l, es[..1]);
  }

  lemma RunSteps(p: Policy, l: Login, es: seq<Event>)
    requires es != []
    ensures Run(p, l, es) == Happen(p, Run(p, l, es[..|es| - 1]), es[|es| - 1])
  {}

  // ----- who gets in -----

  lemma RunOn(p: Policy, l: Login, es: seq<Event>, e: Event)
    ensures Run(p, l, es + [e]) == Happen(p, Run(p, l, es), e)
  {
    assert (es + [e])[..|es|] == es;
  }

  /** Nothing is under way, the server is waiting with `avail` on offer, and the client's
      application is asked for a credential. */
  predicate Asked(l: Login, avail: Mask, need: Need) {
    && l.c2s == [] && l.s2c == [] && l.s.state == Pending && l.s.greeted && l.s.avail == avail && l.s.tries <= 1
    && l.s.user == l.c.user && l.s.sid == l.c.sid && l.c.state == Pending && l.c.need == need
  }

  /** Begin, and the two hear each other. */
  lemma Greets(p: Policy, sid: nat, user: string) returns (es: seq<Event>)
    requires Offers(p, NewClient(sid, user).user)
    ensures var l := Run(p, Initial(sid, user), es);
            var avail := p.methods(l.c.user);
      && l.c.user == NewClient(sid, user).user && l.s.tries == 0
      && Asked(l, avail, if avail.pk then NeedKey else NeedPassword)
      && !l.c.avail.pk && l.c.avail.pw == (avail.pk && avail.pw)
  {
    var l0 := Initial(sid, user);
    var l1 := Happen(p, l0, Begin);
    assert l1.c2s == [Hello(l0.c.user)];
    var l2 := Happen(p, l1, ServerHears);
    assert l2.c2s == [] && l2.s2c == [Methods(Byte(p.methods(l0.c.user)))];
    var l3 := Happen(p, l2, ClientHears);
    assert l3.s2c == [];
    es := [] + [Begin];
    RunOn(p, l0, [], Begin);
    RunOn(p, l0, es, ServerHears);
    es := es + [ServerHears];
    RunOn(p, l0, es, ClientHears);
    es := es + [ClientHears];
    hide Happen;
  }

  /** A credential is given, and the two hear each other. */
  lemma Tries(p: Policy, l0: Login, es0: seq<Event>, give: Event, m: Message) returns (es: seq<Event>)
    requires var l := Run(p, l0, es0);
      && Asked(l, l.s.avail, l.c.need) && IsCredential(m) && WellSized(m)
      && Happen(p, l, give) == Sent(l, l.c.(need := Nothing), [m])
    ensures var l, l' := Run(p, l0, es0), Run(p, l0, es);
            var (s', ms) := ServerFeed(p, l.s, m);
      && l'.c2s == [] && l'.s2c == [] && l'.s == s' && |ms| == 1
      && l'.c == ClientFeed(l.c.(need := Nothing), ms[0])
  {
    var l := Run(p, l0, es0);
    CredentialAnswer(p, l.s, m);
    var l1 := Happen(p, l, give);
    assert l1.c2s == [m];
    var l2 := Happen(p, l1, ServerHears);
    assert l2.c2s == [] && l2.s2c == ServerFeed(p, l.s, m).1;
    var l3 := Happen(p, l2, ClientHears);
    assert l3.s2c == [];
    RunOn(p, l0, es0, give);
    es := es0 + [give];
    RunOn(p, l0, es, ServerHears);
    es := es + [ServerHears];
    RunOn(p, l0, es, ClientHears);
    es := es + [ClientHears];
    hide Happen, ServerFeed;
  }

  predicate BothIn(l: Login) { l.c.state == Granted && l.s.state == Granted }

  /** A key that is offered and accepted gets the client in. */
  lemma KeyGetsIn(p: Policy, sid: nat, user: string, k: Key) returns (es: seq<Event>)
    requires var u := NewClient(sid, user).user; p.methods(u).pk && p.checkKey(u, k)
    ensures BothIn(Run(p, Initial(sid, user), es))
  {
    hide Run;
    es := Greets(p, sid, user);
    var l := Run(p, Initial(sid, user), es);
    var m := PubKey(k, Sig(k, l.c.sid, l.c.user, k));
    CredentialAnswer(p, l.s, m);
    es := Tries(p, Initial(sid, user), es, GiveKey(Some((k, k))), m);
    hide ServerFeed;
  }

  /** So does a password, when no key is offered. */
  lemma PasswordGetsIn(p: Policy, sid: nat, user: string, pass: string) returns (es: seq<Event>)
    requires var u := NewClient(sid, user).user; !p.methods(u).pk && p.methods(u).pw && p.checkPassword(u, pass)
    requires |pass| <= MAX_PASS - 1
    ensures BothIn(Run(p, Initial(sid, user), es))
  {
    hide Run;
    es := Greets(p, sid, user);
    var l := Run(p, Initial(sid, user), es);
    CredentialAnswer(p, l.s, Password(pass));
    es := Tries(p, Initial(sid, user), es, GivePassword(Some(pass)), Password(pass));
    hide ServerFeed;
  }

  /** And after a key that was refused. */
  lemma PasswordAfterKey(p: Policy, sid: nat, user: string, signer: Key, k: Key, pass: string) returns (es: seq<Event>)
    requires var u := NewClient(sid, user).user;
      p.methods(u).pk && p.methods(u).pw && !(signer == k && p.checkKey(u, k)) && p.checkPassword(u, pass)
    requires |pass| <= MAX_PASS - 1
    ensures BothIn(Run(p, Initial(sid, user), es))
  {
    hide Run;
    es := Greets(p, sid, user);
    var l := Run(p, Initial(sid, user), es);
    var m := PubKey(k, Sig(signer, l.c.sid, l.c.user, k));
    CredentialAnswer(p, l.s, m);
    es := Tries(p, Initial(sid, user), es, GiveKey(Some((signer, k))), m);
    var l1 := Run(p, Initial(sid, user), es);
    KeyRefused(p, l.s, m);
    hide ServerFeed;
    assert Asked(l1, l1.s.avail, NeedPassword);
    CredentialAnswer(p, l1.s, Password(pass));
    es := Tries(p, Initial(sid, user), es, GivePassword(Some(pass)), Password(pass));
  }

  lemma KeyRefused(p: Policy, s: Server, m: Message)
    requires s.state == Pending && s.greeted && m.PubKey? && s.avail.pw && s.tries == 0 && !CredentialGood(p, s, m)
    ensures var (s', ms) := ServerFeed(p, s, m);
      s'.state == Pending && s'.avail.pw && s'.tries == 1 && ms == [Fail(Byte(s'.avail))]
  {}

  /** And when the key is declined. */
  lemma PasswordWithoutKey(p: Policy, sid: nat, user: string, pass: string) returns (es: seq<Event>)
    requires var u := NewClient(sid, user).user; p.methods(u).pk && p.methods(u).pw && p.checkPassword(u, pass)
    requires |pass| <= MAX_PASS - 1
    ensures BothIn(Run(p, Initial(sid, user), es))
  {
    hide Run;
    var l0 := Initial(sid, user);
    es := Greets(p, sid, user);
    var l := Run(p, l0, es);
    var l1 := Happen(p, l, GiveKey(None));
    assert l1.c2s == [];
    assert Asked(l1, l.s.avail, NeedPassword);
    RunOn(p, l0, es, GiveKey(None));
    es := es + [GiveKey(None)];
    CredentialAnswer(p, l1.s, Password(pass));
    es := Tries(p, l0, es, GivePassword(Some(pass)), Password(pass));
    hide ServerFeed;
  }

  /** The policy offers this user a method and accepts a credential of it. */
  ghost predicate Admits(p: Policy, user: string) {
    || (p.methods(user).pk && exists k :: p.checkKey(user, k))
    || (p.methods(user).pw && exists pass :: |pass| <= MAX_PASS - 1 && p.checkPassword(user, pass))
  }

  /** What is on offer was offered by the policy, and so was the method of what was let in. */
  predicate ByPolicy(p: Policy, l: Login) {
    && (l.s.greeted ==> (l.s.avail.pk ==> p.methods(l.s.user).pk) && (l.s.avail.pw ==> p.methods(l.s.user).pw))
    && (l.accepted.Some? ==>
          && l.s.greeted && IsCredential(l.accepted.value) && WellSized(l.accepted.value)
          && (if l.accepted.value.PubKey? then p.methods(l.s.user).pk else p.methods(l.s.user).pw))
  }

  lemma HappenByPolicy(p: Policy, l: Login, e: Event)
    requires Inv(p, l) && ByPolicy(p, l)
    ensures ByPolicy(p, Happen(p, l, e))
  {
    if e.ServerHears? && l.c2s != [] && l.s.state == Pending && l.s.greeted && IsCredential(l.c2s[0]) {
      CredentialAnswer(p, l.s, l.c2s[0]);
      hide ServerFeed;
    }
  }

  lemma {:induction false} RunByPolicy(p: Policy, l: Login, es: seq<Event>)
    requires Inv(p, l) && Live(l) && ByPolicy(p, l)
    ensures ByPolicy(p, Run(p, l, es))
  {
    hide Inv, Live, ByPolicy;
    if es != [] {
      RunByPolicy(p, l, es[..|es| - 1]);
      RunKeeps(p, l, es[..|es| - 1]);
      HappenByPolicy(p, Run(p, l, es[..|es| - 1]), es[|es| - 1]);
    }
  }

  /** Some conversation lets the client in if and only if the policy admits its user. */
  lemma AdmittedExactly(p: Policy, sid: nat, user: string)
    ensures (exists es :: BothIn(Run(p, Initial(sid, user), es))) <==> Admits(p, NewClient(sid, user).user)
  {
    hide Run;
    var u := NewClient(sid, user).user;
    if Admits(p, u) {
      var es := GetsIn(p, sid, user);
      assert BothIn(Run(p, Initial(sid, user), es));
    }
    if es :| BothIn(Run(p, Initial(sid, user), es)) {
      LoginAgrees(p, sid, user, es);
      InitialHolds(p, sid, user);
      RunByPolicy(p, Initial(sid, user), es);
      SameUser(p, Initial(sid, user), es);
    }
  }

  lemma HappenUser(p: Policy, l: Login, e: Event)
    ensures Happen(p, l, e).c.user == l.c.user
  {
    hide ServerFeed, Count;
  }

  lemma {:induction false} SameUser(p: Policy, l: Login, es: seq<Event>)
    ensures Run(p, l, es).c.user == l.c.user
  {
    hide Happen;
    if es != [] {
      SameUser(p, l, es[..|es| - 1]);
      HappenUser(p, Run(p, l, es[..|es| - 1]), es[|es| - 1]);
    }
  }

  lemma GetsIn(p: Policy, sid: nat, user: string) returns (es: seq<Event>)
    requires Admits(p, NewClient(sid, user).user)
    ensures BothIn(Run(p, Initial(sid, user), es))
  {
    hide Run;
    var u := NewClient(sid, user).user;
    if p.methods(u).pk && exists k :: p.checkKey(u, k) {
      var k :| p.checkKey(u, k);
      es := KeyGetsIn(p, sid, user, k);
    } else {
      var pass :| |pass| <= MAX_PASS - 1 && p.checkPassword(u, pass);
      if p.methods(u).pk {
        es := PasswordWithoutKey(p, sid, user, pass);
      } else {
        es := PasswordGetsIn(p, sid, user, pass);
      }
    }
  }

  // ----- whatever the client sends -----

  /** A server fed any messages at all, and everything it answers. */
  function Hears(p: Policy, s: Server, ms: seq<Message>): (r: (Server, seq<Message>)) {
    if ms == [] then (s, [])
    else
      var (s1, rs) := Hears(p, s, ms[..|ms| - 1]);
      var (s2, r) := ServerFeed(p, s1, ms[|ms| - 1]);
      (s2, rs + r)
  }

  function Refusals(ms: seq<Message>): nat {
    if ms == [] then 0 else Refusals(ms[..|ms| - 1]) + if ms[|ms| - 1].Fail? then 1 else 0
  }

  /** From any client at all a server takes at most six wrong credentials: it refuses six
      times at most, and it is done with the sixth. */
  lemma {:induction false} AtMostSix(p: Policy, sid: nat, ms: seq<Message>)
    ensures var (s, rs) := Hears(p, NewServer(sid), ms);
      && Refusals(rs) == s.tries <= 6 && (s.tries == 6 ==> s.state != Pending)
      && (!s.greeted ==> rs == [] && s.state != Granted)
      && (s.state == Pending && s.greeted ==> s.avail != NONE)
  {
    if ms != [] {
      AtMostSix(p, sid, ms[..|ms| - 1]);
      var (s, rs) := Hears(p, NewServer(sid), ms[..|ms| - 1]);
      var (s', r) := ServerFeed(p, s, ms[|ms| - 1]);
      OneAnswer(p, s, ms[|ms| - 1]);
      hide ServerFeed;
      if r == [] { assert rs + r == rs; } else { assert (rs + r)[..|rs| + 1 - 1] == rs; }
    }
  }

  /** One message gets one answer at most, and a refusal counts as a try. */
  lemma OneAnswer(p: Policy, s: Server, m: Message)
    requires s.tries <= 6 && (s.tries == 6 ==> s.state != Pending)
    requires !s.greeted ==> s.state != Granted
    requires s.state == Pending && s.greeted ==> s.avail != NONE
    ensures var (s', r) := ServerFeed(p, s, m);
      && |r| <= 1 && s'.tries == s.tries + (if r != [] && r[0].Fail? then 1 else 0) <= 6
      && (s'.tries == 6 ==> s'.state != Pending) && (!s'.greeted ==> r == [] && s'.state != Granted)
      && (s'.state == Pending && s'.greeted ==> s'.avail != NONE)
  {}

  /** With nothing to offer: the greeting is under way, or its answer is, or it is over. */
  predicate Barren(l: Login) {
    && |l.c.user| <= MAX_USER && l.c.need == Nothing
    && (forall i :: 0 <= i < |l.c2s| ==> l.c2s[i] == Hello(l.c.user))
    && (!l.s.greeted ==> l.s.state == Pending && l.s2c == [] && l.c.state == Pending && (l.starts >= 1 ==> l.c2s != []))
    && (l.s.greeted ==> l.c.state == Denied
                        || (l.c.state == Pending && |l.s2c| == 1 && l.s2c[0].Methods? && !l.s2c[0].mask.pk
                           && !l.s2c[0].mask.pw))
    && (l.s.greeted ==> !l.s.avail.pk && !l.s.avail.pw)
    && |l.s2c| <= 1
  }

  lemma {:induction false} RunBarren(p: Policy, l: Login, es: seq<Event>)
    requires Barren(l) && !Offers(p, l.c.user)
    ensures Barren(Run(p, l, es)) && Run(p, l, es).c.user == l.c.user
    decreases |es|
  {
    if es != [] {
      var k, e := Run(p, l, es[..|es| - 1]), es[|es| - 1];
      RunBarren(p, l, es[..|es| - 1]);
      BarrenKeeps(p, k, e);
    }
  }

  lemma BarrenKeeps(p: Policy, l: Login, e: Event)
    requires Barren(l) && !Offers(p, l.c.user)
    ensures Barren(Happen(p, l, e)) && Happen(p, l, e).c.user == l.c.user
  {
    match e
    case Begin =>
    case GiveKey(_) => assert l.c2s + [] == l.c2s;
    case GivePassword(_) => assert l.c2s + [] == l.c2s;
    case ClientHears =>
    case ServerHears => if l.c2s != [] { GreetingBarren(p, l); }
  }

  /** A second greeting is not answered, and the first with no method at all. */
  lemma GreetingBarren(p: Policy, l: Login)
    requires Barren(l) && !Offers(p, l.c.user) && l.c2s != []
    ensures Barren(Happen(p, l, ServerHears)) && Happen(p, l, ServerHears).c.user == l.c.user
  {
    assert l.c2s[0] == Hello(l.c.user);
    assert forall i :: 0 <= i < |l.c2s[1..]| ==> l.c2s[1..][i] == l.c2s[i + 1];
  }

  // ----- the machine in place -----

  /** struct nc_auth: one object type for both roles; `sent` collects what the send callback
      is given. */
  class Machine {
    const server: bool
    const sid: nat
    var state: State
    var need: Need
    var avail: Mask
    var user: string
    var greeted: bool
    var tries: nat
    var sent: seq<Message>

    /** How many of the two methods are still offered. */
    function OnOffer(): nat
      reads this`avail
    {
      (if avail.pk then 1 else 0) + if avail.pw then 1 else 0
    }

    function AsClient(): Client reads this { Client(state, need, avail, sid, user) }
    function AsServer(): Server reads this { Server(state, greeted, avail, tries, sid, user) }

    /** nc_auth_client_init. */
    constructor ForClient(id: nat, name: string)
      ensures !server && AsClient() == NewClient(id, name) && sent == []
    {
      server, sid, state, need, avail := false, id, Pending, Nothing, NONE;
      user := if |name| > MAX_USER then name[..MAX_USER] else name;
      greeted, tries, sent := false, 0, [];
    }

    /** nc_auth_server_init. */
    constructor ForServer(id: nat)
      ensures server && AsServer() == NewServer(id) && sent == []
    {
      server, sid, state, need, avail := true, id, Pending, Nothing, NONE;
      user, greeted, tries, sent := "", false, 0, [];
    }

    method Begin()
      modifies this`sent
      ensures sent == old(sent) + if server then [] else Start(old(AsClient()))
    {
      if server || state != Pending { return; }
      sent := sent + [Hello(user)];
    }

    /** client_try_next: asks for the best method still offered and strikes it off, so no method
        is asked for twice; gives up exactly when none is left. */
    method TryNextMethod()
      modifies this`state, this`need, this`avail
      ensures AsClient() == TryNext(old(AsClient()))
      ensures old(state) == Pending ==> (state == Denied <==> !old(avail).pk && !old(avail).pw)
      ensures old(state) == Pending && state == Pending ==> need != Nothing && OnOffer() < old(OnOffer())
      ensures need == NeedPassword && old(need) != NeedPassword ==> !old(avail).pk
    {
      if state != Pending { return; }
      if avail.pk {
        avail := avail.(pk := false);
        need := NeedKey;
        return;
      }
      if avail.pw {
        avail := avail.(pw := false);
        need := NeedPassword;
        return;
      }
      need := Nothing;
      state := Denied;
    }

    method Supply(key: Option<(Key, Key)>)
      modifies this`state, this`need, this`avail, this`sent
      ensures server ==> AsClient() == old(AsClient()) && sent == old(sent)
      ensures !server ==> AsClient() == SupplyKey(old(AsClient()), key).0
      ensures !server ==> sent == old(sent) + SupplyKey(old(AsClient()), key).1
    {
      if server || need != NeedKey { return; }
      need := Nothing;
      if key.None? {
        TryNextMethod();
        return;
      }
      var (sk, pk) := key.value;
      sent := sent + [PubKey(pk, Sig(sk, sid, user, pk))];
    }

    method SupplySecret(password: Option<string>)
      modifies this`state, this`need, this`avail, this`sent
      ensures server ==> AsClient() == old(AsClient()) && sent == old(sent)
      ensures !server ==> AsClient() == SupplyPassword(old(AsClient()), password).0
      ensures !server ==> sent == old(sent) + SupplyPassword(old(AsClient()), password).1
    {
      if server || need != NeedPassword { return; }
      need := Nothing;
      if password.None? {
        TryNextMethod();
        return;
      }
      if |password.value| > MAX_PASS - 1 {
        TryNextMethod();
        return;
      }
      sent := sent + [Password(password.value)];
    }

    method HearAsClient(m: Message) returns (ok: bool)
      requires state == Pending
      modifies this`state, this`need, this`avail
      ensures (if ok then AsClient() else AsClient().(state := Denied)) == ClientFeed(old(AsClient()), m)
    {
      match m
      case Methods(mask) =>
        avail := mask;
        if avail == NONE {
          state := Denied;
          return true;
        }
        TryNextMethod();
        return true;
      case Accept =>
        state := Granted;
        return true;
      case Fail(left) =>
        avail := And(avail, left);
        TryNextMethod();
        return true;
      case _ => return false;
    }

    /** server_deny: one answer goes out and names exactly what may still be tried, which is
        nothing once the conversation is over; what was spent is never offered again. */
    method Refuse(spent: Mask)
      modifies this`state, this`avail, this`tries, this`sent
      ensures AsServer() == Deny(old(AsServer()), spent).0
      ensures sent == old(sent) + Deny(old(AsServer()), spent).1
      ensures sent == old(sent) + [Fail(Byte(avail))]
      ensures (spent.pk ==> !avail.pk) && (spent.pw ==> !avail.pw) && avail.other !! spent.other
      ensures (avail.pk ==> old(avail).pk) && (avail.pw ==> old(avail).pw) && avail.other <= old(avail).other
      ensures old(state) == Pending ==> (state == Denied <==> avail == NONE)
      ensures tries >= MAX_TRIES ==> state == Denied
    {
      avail := Mask(avail.pk && !spent.pk, avail.pw && !spent.pw, avail.other - spent.other);
      tries := tries + 1;
      if tries >= MAX_TRIES || avail == NONE {
        avail := NONE;
        state := Denied;
      }
      sent := sent + [Fail(Byte(avail))];
    }

    method HearAsServer(p: Policy, m: Message) returns (ok: bool)
      requires state == Pending
      modifies this`state, this`avail, this`user, this`greeted, this`tries, this`sent
      ensures (if ok then AsServer() else AsServer().(state := Denied)) == ServerFeed(p, old(AsServer()), m).0
      ensures sent == old(sent) + ServerFeed(p, old(AsServer()), m).1
    {
      match m
      case Hello(name) =>
        if greeted || |name| > MAX_USER { return false; }
        user := name;
        greeted := true;
        avail := p.methods(user);
        if avail == NONE { state := Denied; }
        sent := sent + [Methods(Byte(avail))];
        return true;
      case PubKey(pk, sig) =>
        if !greeted { return false; }
        if !avail.pk {
          Refuse(NONE);
          return true;
        }
        if sig == Sig(pk, sid, user, pk) && p.checkKey(user, pk) {
          state := Granted;
          sent := sent + [Accept];
          return true;
        }
        Refuse(Mask(true, false, {}));
        return true;
      case Password(pass) =>
        if !greeted || |pass| > MAX_PASS - 1 { return false; }
        if !avail.pw {
          Refuse(NONE);
          return true;
        }
        if p.checkPassword(user, pass) {
          state := Granted;
          sent := sent + [Accept];
          return true;
        }
        Refuse(Mask(false, true, {}));
        return true;
      case _ => return false;
    }

    /** nc_auth_feed: an error ends the conversation for this side. */
    method Hear(p: Policy, m: Message)
      modifies this`state, this`need, this`avail, this`user, this`greeted, this`tries, this`sent
      ensures !server ==> AsClient() == ClientFeed(old(AsClient()), m) && sent == old(sent)
      ensures server ==> AsServer() == ServerFeed(p, old(AsServer()), m).0
      ensures server ==> sent == old(sent) + ServerFeed(p, old(AsServer()), m).1
    {
      if state != Pending { return; }
      var ok: bool;
      if server { ok := HearAsServer(p, m); } else { ok := HearAsClient(m); }
      if !ok { state := Denied; }
    }
  }
}
