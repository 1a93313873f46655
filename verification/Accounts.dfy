/** Passwords: once an account exists, every later login at either tracker is judged by the password it was made with. */
module Accounts {
  import opened Text
  import opened Store
  import opened Handlers
  import opened Commands
  import opened Names
  import opened Replication

  /** Stored secrets by user. */
  function Secrets(d: Disk): map<string, string> {
    PairMap(Read(d, Credentials))
  }

  ghost predicate KeepsSecrets(d: Disk, d': Disk) {
    forall u :: u in Secrets(d) ==> u in Secrets(d') && Secrets(d')[u] == Secrets(d)[u]
  }

  lemma NewUserSecrets(h: PasswordHash, d: Disk, u: string, pw: string, port: string, ip: string, salt: string)
    ensures Secrets(NewUser(h, d, u, pw, port, ip, salt)) == Secrets(d)[u := salt + ":" + h(salt, pw)]
  {
  }

  lemma OtherCommandsLeaveCredentials(h: PasswordHash, s: State, c: Command)
    requires !c.CreateUser?
    ensures Credentials !in Step(h, s, c).pushed
  {
  }

  lemma StepKeepsSecrets(h: PasswordHash, s: State, c: Command)
    requires BASE <= s.disk.Keys
    ensures KeepsSecrets(s.disk, Step(h, s, c).state.disk)
  {
    if c.CreateUser? {
      WithBaseSame(s.disk);
      var d' := NewUser(h, s.disk, c.user, c.password, c.port, c.ip, c.salt);
      NewUserSecrets(h, s.disk, c.user, c.password, c.port, c.ip, c.salt);
      WithBaseSame(d');
    } else {
      StepTouches(h, s, c);
      OtherCommandsLeaveCredentials(h, s, c);
    }
  }

  /** One event keeps every secret, from any tracker that was up to any that is up afterwards. */
  lemma EventKeepsSecrets(h: PasswordHash, n: Cluster, e: Event, i: nat, j: nat)
    requires Replicated(n) && Enabled(n, e) && Lands(n, e) && i < 2 && j < 2
    requires n[i].up && Apply(h, n, e)[j].up
    ensures KeepsSecrets(n[i].state.disk, Apply(h, n, e)[j].state.disk)
  {
    UpDisks(h, n, e, i, j);
    if e.Run? {
      StepKeepsSecrets(h, n[e.at].state, e.cmd);
    }
  }

  lemma {:induction false} SecretsLast(h: PasswordHash, n: Cluster, events: seq<Event>, i: nat, j: nat)
    requires Replicated(n) && ValidRun(h, n, events) && AllLand(h, n, events) && i < 2 && j < 2
    requires n[i].up && Final(h, n, events)[j].up
    ensures KeepsSecrets(n[i].state.disk, Final(h, n, events)[j].state.disk)
    decreases |events|
  {
    if events == [] {
      SameDisks(n, i, j);
    } else {
      var next := Apply(h, n, events[0]);
      EventReplicated(h, n, events[0]);
      var k: nat := if next[0].up then 0 else 1;
      EventKeepsSecrets(h, n, events[0], i, k);
      SecretsLast(h, next, events[1..], k, j);
      KeepsTwice(n[i].state.disk, next[k].state.disk, Final(h, next, events[1..])[j].state.disk);
    }
  }

  lemma KeepsTwice(a: Disk, b: Disk, c: Disk)
    requires KeepsSecrets(a, b) && KeepsSecrets(b, c)
    ensures KeepsSecrets(a, c)
  {
  }

  lemma {:induction false} ColonAfter(salt: string, x: string)
    requires ':' !in salt
    ensures Colon(salt + ":" + x) == |salt|
  {
    var s := salt + ":" + x;
    if salt != "" {
      assert s[1..] == salt[1..] + ":" + x;
      assert s[0] == salt[0] && salt[0] in salt;
      ColonAfter(salt[1..], x);
    }
  }

  /** A stored secret splits back into its salt and hash. */
  lemma SecretSplits(salt: string, x: string)
    requires ':' !in salt
    ensures SaltOf(salt + ":" + x) == salt && HashOf(salt + ":" + x) == x
  {
    ColonAfter(salt, x);
    var s := salt + ":" + x;
    assert s[..|salt|] == salt && s[|salt| + 1..] == x;
  }

  /** Without a colon, the whole secret serves as both. */
  lemma {:induction false} NoColonNoSplit(secret: string)
    requires ':' !in secret
    ensures Colon(secret) == -1 && SaltOf(secret) == secret && HashOf(secret) == secret
  {
    if secret != "" {
      NoColonNoSplit(secret[1..]);
      assert secret[0] in secret;
    }
  }

  lemma LoginJudges(h: PasswordHash, d: Disk, u: string, pw: string, port: string, ip: string, salt: string, x: string)
    requires ':' !in salt && u in Secrets(d) && Secrets(d)[u] == salt + ":" + x
    ensures DoLogin(h, d, u, pw, port, ip).reply == Verdict(h(salt, pw) == x)
  {
    SecretSplits(salt, x);
  }

  /** The words that `>>` extracts from the line of an account. */
  function AccountWords(u: string, secret: string): seq<string> {
    Words(Split(Join([u, secret], ' '), ' '))
  }

  /**
    Why an account needs a name: its line is read back as name and secret exactly when the name is not empty;
    otherwise the secret is taken for the name.
   */
  lemma AccountReadBackExactly(u: string, secret: string)
    requires Token(u) && Token(secret) && secret != ""
    ensures AccountWords(u, secret) == [u, secret] <==> u != ""
    ensures u == "" ==> AccountWords(u, secret) == [secret]
  {
    var line := [u, secret];
    assert Free(line, ' ');
    SplitUndoesJoin(line, ' ');
    WordsOfTwo(u, secret);
  }

  lemma WordsOfTwo(u: string, secret: string)
    requires secret != ""
    ensures Words([u, secret]) == if u == "" then [secret] else [u, secret]
  {
    assert [u, secret][..1] == [u] && [u][..0] == [];
    assert Words([u]) == if u == "" then [] else [u];
  }

  /** A fresh account is on the disk of the tracker that made it, hence of every tracker that is up. */
  lemma SignUpStores(h: PasswordHash, n: Cluster, at: nat, u: string, pw: string, port: string, ip: string, salt: string)
    requires Replicated(n) && at < 2 && n[at].up
    requires DoCreateUser(h, n[at].state.disk, u, pw, port, ip, salt).reply == Verdict(true)
    ensures var n' := Apply(h, n, Run(at, CreateUser(u, pw, port, ip, salt)));
            && Replicated(n') && n'[at].up
            && u in Secrets(n'[at].state.disk) && Secrets(n'[at].state.disk)[u] == salt + ":" + h(salt, pw)
  {
    var d := n[at].state.disk;
    RunReplicated(h, n, at, CreateUser(u, pw, port, ip, salt));
    WithBaseSame(d);
    NewUserSecrets(h, d, u, pw, port, ip, salt);
    WithBaseSame(NewUser(h, d, u, pw, port, ip, salt));
  }

  /**
    After a successful sign-up at one tracker and any further run of the pair with proper arguments, crashes and
    timely catch-ups, a login at any tracker that is up succeeds exactly when the password hashes like the
    original one.
   */
  lemma {:induction false} LoginForever(h: PasswordHash, n: Cluster, at: nat, u: string, pw: string, port: string,
                                        ip: string, salt: string, events: seq<Event>, j: nat, attempt: string,
                                        port': string, ip': string)
    requires Attained(h, n) && at < 2 && n[at].up && ':' !in salt && Proper(CreateUser(u, pw, port, ip, salt))
    requires DoCreateUser(h, n[at].state.disk, u, pw, port, ip, salt).reply == Verdict(true)
    requires ValidRun(h, Apply(h, n, Run(at, CreateUser(u, pw, port, ip, salt))), events) && AllProper(events)
    requires AllLand(h, Apply(h, n, Run(at, CreateUser(u, pw, port, ip, salt))), events)
    requires j < 2 && Final(h, Apply(h, n, Run(at, CreateUser(u, pw, port, ip, salt))), events)[j].up
    ensures var later := Final(h, Apply(h, n, Run(at, CreateUser(u, pw, port, ip, salt))), events)[j].state.disk;
            DoLogin(h, later, u, attempt, port', ip').reply == Verdict(h(salt, attempt) == h(salt, pw))
  {
    AttainedReplicated(h, n);
    var n' := Apply(h, n, Run(at, CreateUser(u, pw, port, ip, salt)));
    SignUpStores(h, n, at, u, pw, port, ip, salt);
    SecretsLast(h, n', events, at, j);
    LoginJudges(h, Final(h, n', events)[j].state.disk, u, attempt, port', ip', salt, h(salt, pw));
  }
}
