/**
 * The demo's setup (apps/ledger-demo/setup/converge.ts, port.ts, main.ts): the
 * remote state it reads and writes, the writes one run makes, and what holds
 * after a run, after a rerun, and after a run that was cut off anywhere.
 */
module Setup {
  import opened Wrappers
  import opened TextSets

  const LEDGER_KEY := "ACME_LEDGER_KEY"
  const LEDGER_VAULT := "acme-ledger"

  datatype Embedding = Embedding(createAccounts: bool, role: string, origins: seq<string>, vaults: seq<string>)

  datatype Server = Server(name: string, url: string, headers: map<string, string>)

  datatype Agent = Agent(
    description: string, instructions: string, shared: bool,
    disallowed: seq<string>, env: map<string, (bool, string)>, servers: seq<Server>)

  /** A customer's child organization; `secrets` are its vault's values by name. */
  datatype Child = Child(embedding: Embedding, vault: Option<map<string, string>>, minter: Option<string>)

  /**
   * What the setup sees of a Stigmer. `children` are Acme's children by the
   * customer's own id; `keys` says which account each accepted key acts as.
   */
  datatype Remote = Remote(
    acme: Option<Embedding>, room: nat, providerKey: bool, agent: Option<Agent>,
    children: map<string, Child>, keys: map<string, string>)

  datatype Customer = Customer(slug: string, externalId: string)

  datatype Mine = Mine(minterKey: Option<string>, ledgerKey: Option<string>)

  /** The secrets file: by customer slug. */
  type Secrets = map<string, Mine>

  datatype Inputs = Inputs(ledgerUrl: string, origin: string, anthropicKey: Option<string>, agent: Agent)

  /** What a run draws or is handed: the generated ledger key, and what the server mints. */
  datatype Supply = Supply(ledgerKey: string, childEmbedding: Embedding, minterId: string, minterKey: string)

  /** By customer slug. */
  type Supplies = map<string, Supply>

  function SupplyOf(supply: Supplies, slug: string): Supply {
    if slug in supply then supply[slug] else Supply("", Embedding(false, "none", [], []), "", "")
  }

  /* -------------------------------- comparisons ---------------------------------- */

  predicate SameEmbedding(a: Embedding, b: Embedding) {
    a.createAccounts == b.createAccounts && a.role == b.role
    && Canonical(a.origins) == Canonical(b.origins) && Canonical(a.vaults) == Canonical(b.vaults)
  }

  /** The order of tools and servers does not matter; settings and headers have none. */
  predicate SameAgent(a: Agent, b: Agent) {
    && a.description == b.description && a.instructions == b.instructions && a.shared == b.shared
    && multiset(a.disallowed) == multiset(b.disallowed)
    && a.env == b.env && multiset(a.servers) == multiset(b.servers)
  }

  function AcmeEmbedding(inputs: Inputs): Embedding {
    Embedding(true, "member", [inputs.origin], [])
  }

  function ChildEmbedding(inputs: Inputs, c: Customer): Embedding {
    Embedding(true, "member", [inputs.origin], [c.slug + "/" + LEDGER_VAULT])
  }

  /* ------------------------------------ writes ------------------------------------ */

  datatype Write =
    | SaveProviderKey
    | SetAcme(embedding: Embedding)
    | PutAgent(agent: Agent)
    | CreateChild(child: string, embedding: Embedding)
    | CreateVault(child: string)
    | SaveSecret(child: string, value: string)
    | CreateMinter(child: string, id: string)
    | CreateKey(account: string, key: string)
    | SetChild(child: string, embedding: Embedding)

  /** A write on a child that is not there changes nothing; the setup never makes one. */
  function Apply(r: Remote, w: Write): Remote {
    match w
    case SaveProviderKey => r.(providerKey := true)
    case SetAcme(embedding) => r.(acme := Some(embedding))
    case PutAgent(agent) => r.(agent := Some(agent))
    case CreateChild(c, embedding) => r.(children := r.children[c := Child(embedding, None, None)])
    case CreateVault(c) => if c in r.children then PutChild(r, c, r.children[c].(vault := Some(map[]))) else r
    case SaveSecret(c, value) =>
      if c in r.children && r.children[c].vault.Some?
      then PutChild(r, c, r.children[c].(vault := Some(r.children[c].vault.value[LEDGER_KEY := value]))) else r
    case CreateMinter(c, id) => if c in r.children then PutChild(r, c, r.children[c].(minter := Some(id))) else r
    case CreateKey(account, key) => r.(keys := r.keys[key := account])
    case SetChild(c, embedding) => if c in r.children then PutChild(r, c, r.children[c].(embedding := embedding)) else r
  }

  function PutChild(r: Remote, id: string, child: Child): Remote {
    r.(children := r.children[id := child])
  }

  function ApplyAll(r: Remote, writes: seq<Write>): Remote {
    if writes == [] then r else Apply(ApplyAll(r, writes[..|writes| - 1]), writes[|writes| - 1])
  }

  lemma {:induction false} ApplyAllConcat(r: Remote, a: seq<Write>, b: seq<Write>)
    ensures ApplyAll(r, a + b) == ApplyAll(ApplyAll(r, a), b)
  {
    if b == [] {
      assert a + b == a;
    } else {
      ApplyAllConcat(r, a, b[..|b| - 1]);
      assert (a + b)[..|a + b| - 1] == a + b[..|b| - 1];
    }
  }

  /* -------------------------------- one customer ----------------------------------- */

  function HeldSecret(child: Child): Option<string> {
    if child.vault.Some? && LEDGER_KEY in child.vault.value then Some(child.vault.value[LEDGER_KEY]) else None
  }

  /** The ledger key the run returns: the one it had, or a new one. */
  function LedgerKeyOf(mine: Mine, s: Supply): string {
    if mine.ledgerKey.Some? then mine.ledgerKey.value else s.ledgerKey
  }

  function MinterOf(child: Child, s: Supply): string {
    if child.minter.Some? then child.minter.value else s.minterId
  }

  predicate KeyActs(keys: map<string, string>, mine: Mine, account: Option<string>) {
    account.Some? && mine.minterKey.Some? && mine.minterKey.value in keys && keys[mine.minterKey.value] == account.value
  }

  function Start(r: Remote, c: Customer, s: Supply): Child {
    if c.externalId in r.children then r.children[c.externalId] else Child(s.childEmbedding, None, None)
  }

  /** One optional write. */
  function If(needed: bool, w: Write): seq<Write> {
    if needed then [w] else []
  }

  /** The organization, its vault and the ledger key in it. */
  function VaultWrites(r: Remote, c: Customer, mine: Mine, s: Supply): seq<Write> {
    var id, child := c.externalId, Start(r, c, s);
    If(id !in r.children, CreateChild(id, s.childEmbedding))
    + If(child.vault.None?, CreateVault(id))
    + If(mine.ledgerKey.None? || HeldSecret(child).None?, SaveSecret(id, LedgerKeyOf(mine, s)))
  }

  /** The minting account, its key and the embedding settings. */
  function MinterWrites(keys: map<string, string>, child: Child, c: Customer, inputs: Inputs, mine: Mine, s: Supply): seq<Write> {
    var id := c.externalId;
    If(child.minter.None?, CreateMinter(id, s.minterId))
    + If(!KeyActs(keys, mine, child.minter), CreateKey(MinterOf(child, s), s.minterKey))
    + If(!SameEmbedding(child.embedding, ChildEmbedding(inputs, c)), SetChild(id, ChildEmbedding(inputs, c)))
  }

  /** The writes for one customer, each only where what exists differs from what is needed. */
  function CustomerWrites(r: Remote, c: Customer, inputs: Inputs, mine: Mine, s: Supply): seq<Write> {
    VaultWrites(r, c, mine, s) + MinterWrites(r.keys, Start(r, c, s), c, inputs, mine, s)
  }

  function MineAfter(r: Remote, c: Customer, mine: Mine, s: Supply): Mine {
    Mine(if KeyActs(r.keys, mine, Start(r, c, s).minter) then mine.minterKey else Some(s.minterKey),
         Some(LedgerKeyOf(mine, s)))
  }

  function VaultAfter(r: Remote, c: Customer, mine: Mine, s: Supply): map<string, string> {
    var child := Start(r, c, s);
    var vault := if child.vault.Some? then child.vault.value else map[];
    if mine.ledgerKey.Some? && HeldSecret(child).Some? then vault else vault[LEDGER_KEY := LedgerKeyOf(mine, s)]
  }

  /** What those writes leave of the child. */
  function ChildAfter(r: Remote, c: Customer, inputs: Inputs, mine: Mine, s: Supply): Child {
    var child := Start(r, c, s);
    Child(
      if SameEmbedding(child.embedding, ChildEmbedding(inputs, c)) then child.embedding else ChildEmbedding(inputs, c),
      Some(VaultAfter(r, c, mine, s)),
      Some(MinterOf(child, s)))
  }

  function KeysAfter(r: Remote, c: Customer, mine: Mine, s: Supply): map<string, string> {
    var child := Start(r, c, s);
    if KeyActs(r.keys, mine, child.minter) then r.keys else r.keys[s.minterKey := MinterOf(child, s)]
  }

  lemma ApplyIf(r: Remote, needed: bool, w: Write)
    ensures ApplyAll(r, If(needed, w)) == if needed then Apply(r, w) else r
  {
  }

  lemma Chain(r: Remote, a: seq<Write>, b: seq<Write>, c: seq<Write>, ra: Remote, rb: Remote, rc: Remote)
    requires ApplyAll(r, a) == ra && ApplyAll(ra, b) == rb && ApplyAll(rb, c) == rc
    ensures ApplyAll(r, a + b + c) == rc
  {
    ApplyAllConcat(r, a, b);
    ApplyAllConcat(r, a + b, c);
  }

  lemma PutTwice(r: Remote, id: string, first: Child, second: Child)
    ensures PutChild(PutChild(r, id, first), id, second) == PutChild(r, id, second)
  {
  }

  lemma ChildMade(r: Remote, c: Customer, s: Supply)
    ensures ApplyAll(r, If(c.externalId !in r.children, CreateChild(c.externalId, s.childEmbedding)))
            == PutChild(r, c.externalId, Start(r, c, s))
  {
  }

  function VaultOf(child: Child): map<string, string> {
    if child.vault.Some? then child.vault.value else map[]
  }

  lemma VaultMade(r: Remote, id: string, child: Child)
    ensures ApplyAll(PutChild(r, id, child), If(child.vault.None?, CreateVault(id)))
            == PutChild(r, id, child.(vault := Some(VaultOf(child))))
  {
  }

  lemma SecretSaved(r: Remote, id: string, child: Child, needed: bool, value: string)
    requires child.vault.Some?
    ensures ApplyAll(PutChild(r, id, child), If(needed, SaveSecret(id, value)))
            == PutChild(r, id, if needed then child.(vault := Some(child.vault.value[LEDGER_KEY := value])) else child)
  {
  }

  lemma VaultWritesEffect(r: Remote, c: Customer, mine: Mine, s: Supply)
    ensures ApplyAll(r, VaultWrites(r, c, mine, s))
            == PutChild(r, c.externalId, Start(r, c, s).(vault := Some(VaultAfter(r, c, mine, s))))
  {
    var id, child := c.externalId, Start(r, c, s);
    var needed := mine.ledgerKey.None? || HeldSecret(child).None?;
    var withVault := child.(vault := Some(VaultOf(child)));
    ChildMade(r, c, s);
    VaultMade(r, id, child);
    SecretSaved(r, id, withVault, needed, LedgerKeyOf(mine, s));
    Chain(r, If(id !in r.children, CreateChild(id, s.childEmbedding)), If(child.vault.None?, CreateVault(id)),
          If(needed, SaveSecret(id, LedgerKeyOf(mine, s))),
          PutChild(r, id, child), PutChild(r, id, withVault),
          PutChild(r, id, child.(vault := Some(VaultAfter(r, c, mine, s)))));
  }

  lemma MinterMade(r: Remote, id: string, child: Child, minter: string)
    requires child.minter.Some? ==> child.minter.value == minter
    ensures ApplyAll(PutChild(r, id, child), If(child.minter.None?, CreateMinter(id, minter)))
            == PutChild(r, id, child.(minter := Some(minter)))
  {
  }

  lemma KeyMade(r: Remote, needed: bool, account: string, key: string)
    ensures ApplyAll(r, If(needed, CreateKey(account, key)))
            == r.(keys := if needed then r.keys[key := account] else r.keys)
  {
  }

  lemma EmbeddingSet(r: Remote, id: string, child: Child, needed: bool, embedding: Embedding)
    requires id in r.children && r.children[id] == child
    ensures ApplyAll(r, If(needed, SetChild(id, embedding)))
            == PutChild(r, id, if needed then child.(embedding := embedding) else child)
  {
  }

  lemma MinterWritesEffect(r: Remote, c: Customer, inputs: Inputs, mine: Mine, s: Supply, vault: map<string, string>)
    ensures var withVault := PutChild(r, c.externalId, Start(r, c, s).(vault := Some(vault)));
            ApplyAll(withVault, MinterWrites(r.keys, Start(r, c, s), c, inputs, mine, s))
            == PutChild(r, c.externalId, ChildAfter(r, c, inputs, mine, s).(vault := Some(vault)))
               .(keys := KeysAfter(r, c, mine, s))
  {
    var id, child := c.externalId, Start(r, c, s);
    var withMinter := child.(vault := Some(vault), minter := Some(MinterOf(child, s)));
    var named := PutChild(r, id, withMinter);
    var keyed := named.(keys := KeysAfter(r, c, mine, s));
    var moved := !SameEmbedding(child.embedding, ChildEmbedding(inputs, c));
    var final := if moved then withMinter.(embedding := ChildEmbedding(inputs, c)) else withMinter;
    MinterMade(r, id, child.(vault := Some(vault)), MinterOf(child, s));
    KeyMade(named, !KeyActs(r.keys, mine, child.minter), MinterOf(child, s), s.minterKey);
    EmbeddingSet(keyed, id, withMinter, moved, ChildEmbedding(inputs, c));
    PutTwice(r, id, withMinter, final);
    Chain(PutChild(r, id, child.(vault := Some(vault))),
          If(child.minter.None?, CreateMinter(id, s.minterId)),
          If(!KeyActs(r.keys, mine, child.minter), CreateKey(MinterOf(child, s), s.minterKey)),
          If(moved, SetChild(id, ChildEmbedding(inputs, c))),
          named, keyed, PutChild(keyed, id, final));
  }

  /** The writes make exactly that child and those keys, and touch nothing else. */
  lemma CustomerWritesEffect(r: Remote, c: Customer, inputs: Inputs, mine: Mine, s: Supply)
    ensures ApplyAll(r, CustomerWrites(r, c, inputs, mine, s))
            == PutChild(r, c.externalId, ChildAfter(r, c, inputs, mine, s)).(keys := KeysAfter(r, c, mine, s))
  {
    VaultWritesEffect(r, c, mine, s);
    MinterWritesEffect(r, c, inputs, mine, s, VaultAfter(r, c, mine, s));
    ApplyAllConcat(r, VaultWrites(r, c, mine, s), MinterWrites(r.keys, Start(r, c, s), c, inputs, mine, s));
  }

  /** The secrets file and the vault do not contradict each other. */
  predicate Consistent(r: Remote, c: Customer, mine: Mine) {
    c.externalId in r.children && HeldSecret(r.children[c.externalId]).Some? && mine.ledgerKey.Some?
    ==> HeldSecret(r.children[c.externalId]) == mine.ledgerKey
  }

  /** Everything the customer needs is there, and the vault holds the key the file names. */
  predicate CustomerReady(r: Remote, c: Customer, inputs: Inputs, mine: Mine) {
    && c.externalId in r.children
    && var child := r.children[c.externalId];
       && mine.ledgerKey.Some? && HeldSecret(child) == mine.ledgerKey
       && KeyActs(r.keys, mine, child.minter)
       && SameEmbedding(child.embedding, ChildEmbedding(inputs, c))
  }

  lemma CustomerBecomesReady(r: Remote, c: Customer, inputs: Inputs, mine: Mine, s: Supply)
    requires Consistent(r, c, mine)
    ensures CustomerReady(ApplyAll(r, CustomerWrites(r, c, inputs, mine, s)), c, inputs, MineAfter(r, c, mine, s))
  {
    CustomerWritesEffect(r, c, inputs, mine, s);
  }

  /** The vault ends with the returned key exactly when the file did not contradict it. */
  lemma VaultHoldsReturnedKeyIff(r: Remote, c: Customer, inputs: Inputs, mine: Mine, s: Supply)
    ensures var after := ApplyAll(r, CustomerWrites(r, c, inputs, mine, s));
            && c.externalId in after.children
            && (HeldSecret(after.children[c.externalId]) == MineAfter(r, c, mine, s).ledgerKey <==> Consistent(r, c, mine))
  {
    CustomerWritesEffect(r, c, inputs, mine, s);
  }

  lemma ReadyIsQuiet(r: Remote, c: Customer, inputs: Inputs, mine: Mine, s: Supply)
    requires CustomerReady(r, c, inputs, mine)
    ensures CustomerWrites(r, c, inputs, mine, s) == [] && MineAfter(r, c, mine, s) == mine
  {
  }

  lemma OtherCustomerStaysReady(r: Remote, c: Customer, inputs: Inputs, mine: Mine, other: Customer, others: Mine, s: Supply)
    requires CustomerReady(r, c, inputs, mine) && other.externalId != c.externalId && s.minterKey !in r.keys
    ensures CustomerReady(ApplyAll(r, CustomerWrites(r, other, inputs, others, s)), c, inputs, mine)
  {
    CustomerWritesEffect(r, other, inputs, others, s);
  }

  lemma OtherCustomerStaysConsistent(r: Remote, c: Customer, inputs: Inputs, mine: Mine, other: Customer, others: Mine, s: Supply)
    requires Consistent(r, c, mine) && other.externalId != c.externalId
    ensures Consistent(ApplyAll(r, CustomerWrites(r, other, inputs, others, s)), c, mine)
  {
    CustomerWritesEffect(r, other, inputs, others, s);
  }

  /* -------------------------------- all customers ---------------------------------- */

  function MineOf(secrets: Secrets, c: Customer): Mine {
    if c.slug in secrets then secrets[c.slug] else Mine(None, None)
  }

  predicate Distinct(cs: seq<Customer>) {
    forall i, k | 0 <= i < k < |cs| :: cs[i].slug != cs[k].slug && cs[i].externalId != cs[k].externalId
  }

  /** The server mints keys it does not already accept, a new one each time. */
  predicate FreshKeys(r: Remote, cs: seq<Customer>, supply: Supplies) {
    && (forall i | 0 <= i < |cs| :: SupplyOf(supply, cs[i].slug).minterKey !in r.keys)
    && (forall i, k | 0 <= i < k < |cs| :: SupplyOf(supply, cs[i].slug).minterKey != SupplyOf(supply, cs[k].slug).minterKey)
  }

  /** One customer is distinct from the others there are not, and its new key is fresh. */
  lemma OneCustomer(r: Remote, c: Customer, supply: Supplies)
    ensures Distinct([c])
    ensures FreshKeys(r, [c], supply) <==> SupplyOf(supply, c.slug).minterKey !in r.keys
  {
    assert [c][0] == c;
  }

  function HeadWrites(r: Remote, cs: seq<Customer>, inputs: Inputs, secrets: Secrets, supply: Supplies): seq<Write>
    requires cs != []
  {
    CustomerWrites(r, cs[0], inputs, MineOf(secrets, cs[0]), SupplyOf(supply, cs[0].slug))
  }

  function WritesFor(r: Remote, cs: seq<Customer>, inputs: Inputs, secrets: Secrets, supply: Supplies): seq<Write>
    decreases |cs|
  {
    if cs == [] then []
    else
      var head := HeadWrites(r, cs, inputs, secrets, supply);
      head + WritesFor(ApplyAll(r, head), cs[1..], inputs, secrets, supply)
  }

  function SecretsFor(r: Remote, cs: seq<Customer>, inputs: Inputs, secrets: Secrets, supply: Supplies): Secrets
    decreases |cs|
  {
    if cs == [] then secrets
    else
      var head := HeadWrites(r, cs, inputs, secrets, supply);
      var mine := MineAfter(r, cs[0], MineOf(secrets, cs[0]), SupplyOf(supply, cs[0].slug));
      SecretsFor(ApplyAll(r, head), cs[1..], inputs, secrets, supply)[cs[0].slug := mine]
  }

  predicate AllReady(r: Remote, cs: seq<Customer>, inputs: Inputs, secrets: Secrets) {
    forall i | 0 <= i < |cs| :: CustomerReady(r, cs[i], inputs, MineOf(secrets, cs[i]))
  }

  predicate AllConsistent(r: Remote, cs: seq<Customer>, secrets: Secrets) {
    forall i | 0 <= i < |cs| :: Consistent(r, cs[i], MineOf(secrets, cs[i]))
  }

  lemma {:induction false} OutsiderStaysReady(r: Remote, cs: seq<Customer>, inputs: Inputs, secrets: Secrets,
                                             supply: Supplies, c: Customer, mine: Mine)
    requires CustomerReady(r, c, inputs, mine) && FreshKeys(r, cs, supply)
    requires forall i | 0 <= i < |cs| :: cs[i].externalId != c.externalId
    ensures CustomerReady(ApplyAll(r, WritesFor(r, cs, inputs, secrets, supply)), c, inputs, mine)
    decreases |cs|
  {
    if cs != [] {
      var head := HeadWrites(r, cs, inputs, secrets, supply);
      var next := ApplyAll(r, head);
      OtherCustomerStaysReady(r, c, inputs, mine, cs[0], MineOf(secrets, cs[0]), SupplyOf(supply, cs[0].slug));
      FreshKeysRest(r, cs, inputs, secrets, supply);
      OutsiderStaysReady(next, cs[1..], inputs, secrets, supply, c, mine);
      ApplyAllConcat(r, head, WritesFor(next, cs[1..], inputs, secrets, supply));
    }
  }

  lemma FreshKeysRest(r: Remote, cs: seq<Customer>, inputs: Inputs, secrets: Secrets, supply: Supplies)
    requires cs != [] && FreshKeys(r, cs, supply)
    ensures FreshKeys(ApplyAll(r, HeadWrites(r, cs, inputs, secrets, supply)), cs[1..], supply)
  {
    CustomerWritesEffect(r, cs[0], inputs, MineOf(secrets, cs[0]), SupplyOf(supply, cs[0].slug));
  }

  lemma ConsistentRest(r: Remote, cs: seq<Customer>, inputs: Inputs, secrets: Secrets, supply: Supplies)
    requires cs != [] && Distinct(cs) && AllConsistent(r, cs, secrets)
    ensures AllConsistent(ApplyAll(r, HeadWrites(r, cs, inputs, secrets, supply)), cs[1..], secrets)
  {
    forall i | 0 <= i < |cs[1..]|
      ensures Consistent(ApplyAll(r, HeadWrites(r, cs, inputs, secrets, supply)), cs[1..][i], MineOf(secrets, cs[1..][i]))
    {
      assert Consistent(r, cs[i + 1], MineOf(secrets, cs[i + 1]));
      OtherCustomerStaysConsistent(r, cs[i + 1], inputs, MineOf(secrets, cs[i + 1]),
                                   cs[0], MineOf(secrets, cs[0]), SupplyOf(supply, cs[0].slug));
    }
  }

  /** Only the listed customers' entries of the file change. */
  lemma {:induction false} OtherEntriesStay(r: Remote, cs: seq<Customer>, inputs: Inputs, secrets: Secrets,
                                           supply: Supplies, slug: string)
    requires forall i | 0 <= i < |cs| :: cs[i].slug != slug
    ensures var after := SecretsFor(r, cs, inputs, secrets, supply);
            (slug in after <==> slug in secrets) && (slug in secrets ==> after[slug] == secrets[slug])
    decreases |cs|
  {
    if cs != [] {
      OtherEntriesStay(ApplyAll(r, HeadWrites(r, cs, inputs, secrets, supply)), cs[1..], inputs, secrets, supply, slug);
    }
  }

  lemma {:induction false} AllBecomeReady(r: Remote, cs: seq<Customer>, inputs: Inputs, secrets: Secrets, supply: Supplies)
    requires Distinct(cs) && FreshKeys(r, cs, supply) && AllConsistent(r, cs, secrets)
    ensures AllReady(ApplyAll(r, WritesFor(r, cs, inputs, secrets, supply)), cs, inputs,
                     SecretsFor(r, cs, inputs, secrets, supply))
    decreases |cs|
  {
    if cs != [] {
      var head := HeadWrites(r, cs, inputs, secrets, supply);
      var next := ApplyAll(r, head);
      var rest := WritesFor(next, cs[1..], inputs, secrets, supply);
      var mine := MineAfter(r, cs[0], MineOf(secrets, cs[0]), SupplyOf(supply, cs[0].slug));
      CustomerBecomesReady(r, cs[0], inputs, MineOf(secrets, cs[0]), SupplyOf(supply, cs[0].slug));
      FreshKeysRest(r, cs, inputs, secrets, supply);
      ConsistentRest(r, cs, inputs, secrets, supply);
      AllBecomeReady(next, cs[1..], inputs, secrets, supply);
      OutsiderStaysReady(next, cs[1..], inputs, secrets, supply, cs[0], mine);
      ApplyAllConcat(r, head, rest);
      ReadyWithHead(ApplyAll(next, rest), cs, inputs, SecretsFor(next, cs[1..], inputs, secrets, supply), mine);
    }
  }

  lemma ReadyWithHead(r: Remote, cs: seq<Customer>, inputs: Inputs, file: Secrets, mine: Mine)
    requires cs != [] && Distinct(cs) && AllReady(r, cs[1..], inputs, file) && CustomerReady(r, cs[0], inputs, mine)
    ensures AllReady(r, cs, inputs, file[cs[0].slug := mine])
  {
  }

  lemma {:induction false} AllReadyIsQuiet(r: Remote, cs: seq<Customer>, inputs: Inputs, secrets: Secrets, supply: Supplies)
    requires AllReady(r, cs, inputs, secrets)
    ensures WritesFor(r, cs, inputs, secrets, supply) == []
    ensures forall i | 0 <= i < |cs| :: MineOf(SecretsFor(r, cs, inputs, secrets, supply), cs[i]) == MineOf(secrets, cs[i])
    decreases |cs|
  {
    if cs != [] {
      ReadyIsQuiet(r, cs[0], inputs, MineOf(secrets, cs[0]), SupplyOf(supply, cs[0].slug));
      AllReadyIsQuiet(r, cs[1..], inputs, secrets, supply);
      SameEntries(SecretsFor(r, cs[1..], inputs, secrets, supply), cs, secrets);
    }
  }

  lemma SameEntries(rest: Secrets, cs: seq<Customer>, secrets: Secrets)
    requires cs != [] && forall i | 0 <= i < |cs[1..]| :: MineOf(rest, cs[1..][i]) == MineOf(secrets, cs[1..][i])
    ensures forall i | 0 <= i < |cs| :: MineOf(rest[cs[0].slug := MineOf(secrets, cs[0])], cs[i]) == MineOf(secrets, cs[i])
  {
    forall i | 0 <= i < |cs|
      ensures MineOf(rest[cs[0].slug := MineOf(secrets, cs[0])], cs[i]) == MineOf(secrets, cs[i])
    {
      if i > 0 && cs[i].slug != cs[0].slug {
        assert MineOf(rest, cs[1..][i - 1]) == MineOf(secrets, cs[1..][i - 1]);
      } else if i > 0 {
        assert MineOf(secrets, cs[i]) == MineOf(secrets, cs[0]);
      }
    }
  }

  /* ---------------------------------- the whole run ---------------------------------- */

  predicate Https(url: string) {
    "https://" <= url
  }

  /** The refusals, all of them before the first write. */
  predicate Refused(r: Remote, inputs: Inputs, cs: seq<Customer>) {
    || !Https(inputs.ledgerUrl) || r.acme.None? || r.room < |cs|
    || (!r.providerKey && inputs.anthropicKey.None?)
  }

  function AcmeWrites(r: Remote, inputs: Inputs): seq<Write>
    requires r.acme.Some?
  {
    If(!r.providerKey, SaveProviderKey)
    + If(!SameEmbedding(r.acme.value, AcmeEmbedding(inputs)), SetAcme(AcmeEmbedding(inputs)))
    + If(!(r.agent.Some? && SameAgent(r.agent.value, inputs.agent)), PutAgent(inputs.agent))
  }

  function Plan(r: Remote, inputs: Inputs, cs: seq<Customer>, secrets: Secrets, supply: Supplies): seq<Write>
    requires r.acme.Some?
  {
    var acme := AcmeWrites(r, inputs);
    acme + WritesFor(ApplyAll(r, acme), cs, inputs, secrets, supply)
  }

  function Returned(r: Remote, inputs: Inputs, cs: seq<Customer>, secrets: Secrets, supply: Supplies): Secrets
    requires r.acme.Some?
  {
    SecretsFor(ApplyAll(r, AcmeWrites(r, inputs)), cs, inputs, secrets, supply)
  }

  /** The world the setup is for. */
  predicate Converged(r: Remote, inputs: Inputs, cs: seq<Customer>, secrets: Secrets) {
    && r.acme.Some? && SameEmbedding(r.acme.value, AcmeEmbedding(inputs))
    && r.providerKey && r.room >= |cs|
    && r.agent.Some? && SameAgent(r.agent.value, inputs.agent)
    && AllReady(r, cs, inputs, secrets)
  }

  /**
   * That world, field by field: Acme creates accounts on sign-in, as members, from the page's
   * origin and with no vault; its stored Agent says, shares, forbids, needs and serves what is
   * wanted; and each customer's organization holds the ledger key of the secrets file in its
   * vault, a minter whose key the file has, and settings like Acme's that name the vault.
   */
  lemma ConvergedIff(r: Remote, inputs: Inputs, cs: seq<Customer>, secrets: Secrets)
    ensures Converged(r, inputs, cs, secrets) <==>
            && r.acme.Some? && r.acme.value.createAccounts && r.acme.value.role == "member"
            && Canonical(r.acme.value.origins) == Canonical([inputs.origin]) && Canonical(r.acme.value.vaults) == Canonical([])
            && r.providerKey && |cs| <= r.room
            && r.agent.Some?
            && r.agent.value.description == inputs.agent.description
            && r.agent.value.instructions == inputs.agent.instructions
            && r.agent.value.shared == inputs.agent.shared
            && multiset(r.agent.value.disallowed) == multiset(inputs.agent.disallowed)
            && r.agent.value.env == inputs.agent.env
            && multiset(r.agent.value.servers) == multiset(inputs.agent.servers)
            && forall i | 0 <= i < |cs| :: HasItsOwn(r, cs[i], inputs, secrets)
  {
    forall i | 0 <= i < |cs|
      ensures CustomerReady(r, cs[i], inputs, MineOf(secrets, cs[i])) <==> HasItsOwn(r, cs[i], inputs, secrets)
    {
      HasItsOwnIff(r, cs[i], inputs, secrets);
    }
  }

  /** The customer's organization, with its key, its minter and its settings. */
  predicate HasItsOwn(r: Remote, c: Customer, inputs: Inputs, secrets: Secrets) {
    && c.externalId in r.children && c.slug in secrets
    && var child, mine := r.children[c.externalId], secrets[c.slug];
       && child.vault.Some? && "ACME_LEDGER_KEY" in child.vault.value
       && mine.ledgerKey == Some(child.vault.value["ACME_LEDGER_KEY"])
       && child.minter.Some? && mine.minterKey.Some?
       && mine.minterKey.value in r.keys && r.keys[mine.minterKey.value] == child.minter.value
       && child.embedding.createAccounts && child.embedding.role == "member"
       && Canonical(child.embedding.origins) == Canonical([inputs.origin])
       && Canonical(child.embedding.vaults) == Canonical([c.slug + "/acme-ledger"])
  }

  lemma HasItsOwnIff(r: Remote, c: Customer, inputs: Inputs, secrets: Secrets)
    ensures CustomerReady(r, c, inputs, MineOf(secrets, c)) <==> HasItsOwn(r, c, inputs, secrets)
  {
    assert c.slug + "/" + LEDGER_VAULT == c.slug + "/acme-ledger";
  }

  /** On lists a newline join cannot confuse, the settings are those lists in some order. */
  lemma EmbeddingIff(stored: Embedding, origins: seq<string>, vaults: seq<string>)
    requires Plain(stored.origins) && Plain(stored.vaults) && Plain(origins) && Plain(vaults)
    ensures SameEmbedding(stored, Embedding(true, "member", origins, vaults)) <==>
            && stored.createAccounts && stored.role == "member"
            && multiset(stored.origins) == multiset(origins) && multiset(stored.vaults) == multiset(vaults)
  {
    CanonicalIff(stored.origins, origins);
    CanonicalIff(stored.vaults, vaults);
  }

  lemma AcmeWritesEffect(r: Remote, inputs: Inputs)
    requires r.acme.Some?
    ensures var after := ApplyAll(r, AcmeWrites(r, inputs));
            && after.children == r.children && after.keys == r.keys && after.room == r.room && after.providerKey
            && after.acme.Some? && SameEmbedding(after.acme.value, AcmeEmbedding(inputs))
            && after.agent.Some? && SameAgent(after.agent.value, inputs.agent)
  {
    var wanted := AcmeEmbedding(inputs);
    var moved := !SameEmbedding(r.acme.value, wanted);
    var stale := !(r.agent.Some? && SameAgent(r.agent.value, inputs.agent));
    var keyed := r.(providerKey := true);
    var embedded := if moved then keyed.(acme := Some(wanted)) else keyed;
    var final := if stale then embedded.(agent := Some(inputs.agent)) else embedded;
    ApplyIf(r, !r.providerKey, SaveProviderKey);
    ApplyIf(keyed, moved, SetAcme(wanted));
    ApplyIf(embedded, stale, PutAgent(inputs.agent));
    Chain(r, If(!r.providerKey, SaveProviderKey), If(moved, SetAcme(wanted)), If(stale, PutAgent(inputs.agent)),
          keyed, embedded, final);
  }

  /** The customers' writes leave Acme's own settings alone. */
  lemma {:induction false} CustomersKeepAcme(r: Remote, cs: seq<Customer>, inputs: Inputs, secrets: Secrets, supply: Supplies)
    ensures var after := ApplyAll(r, WritesFor(r, cs, inputs, secrets, supply));
            after.acme == r.acme && after.room == r.room && after.providerKey == r.providerKey && after.agent == r.agent
    decreases |cs|
  {
    if cs != [] {
      var head := HeadWrites(r, cs, inputs, secrets, supply);
      CustomerWritesEffect(r, cs[0], inputs, MineOf(secrets, cs[0]), SupplyOf(supply, cs[0].slug));
      CustomersKeepAcme(ApplyAll(r, head), cs[1..], inputs, secrets, supply);
      ApplyAllConcat(r, head, WritesFor(ApplyAll(r, head), cs[1..], inputs, secrets, supply));
    }
  }

  /** A run that is not refused reaches the world, from any remote its secrets file does not contradict. */
  lemma RunConverges(r: Remote, inputs: Inputs, cs: seq<Customer>, secrets: Secrets, supply: Supplies)
    requires !Refused(r, inputs, cs) && Distinct(cs) && FreshKeys(r, cs, supply) && AllConsistent(r, cs, secrets)
    ensures Converged(ApplyAll(r, Plan(r, inputs, cs, secrets, supply)), inputs, cs, Returned(r, inputs, cs, secrets, supply))
  {
    var acme := AcmeWrites(r, inputs);
    var mid := ApplyAll(r, acme);
    AcmeWritesEffect(r, inputs);
    AllBecomeReady(mid, cs, inputs, secrets, supply);
    CustomersKeepAcme(mid, cs, inputs, secrets, supply);
    ApplyAllConcat(r, acme, WritesFor(mid, cs, inputs, secrets, supply));
  }

  /** Running again with the returned secrets writes nothing and returns the same keys. */
  lemma RerunIsQuiet(r: Remote, inputs: Inputs, cs: seq<Customer>, secrets: Secrets, supply: Supplies)
    requires Converged(r, inputs, cs, secrets)
    ensures Plan(r, inputs, cs, secrets, supply) == []
    ensures forall i | 0 <= i < |cs| :: MineOf(Returned(r, inputs, cs, secrets, supply), cs[i]) == MineOf(secrets, cs[i])
  {
    assert AcmeWrites(r, inputs) == [];
    AllReadyIsQuiet(r, cs, inputs, secrets, supply);
  }

  /* -------------------------------- cut off anywhere ---------------------------------- */

  /** The write saves no key the secrets file contradicts. */
  predicate Respects(w: Write, cs: seq<Customer>, secrets: Secrets) {
    w.SaveSecret? ==> forall i | 0 <= i < |cs| ::
      cs[i].externalId == w.child && MineOf(secrets, cs[i]).ledgerKey.Some? ==> MineOf(secrets, cs[i]).ledgerKey == Some(w.value)
  }

  predicate AllRespect(writes: seq<Write>, cs: seq<Customer>, secrets: Secrets) {
    forall k | 0 <= k < |writes| :: Respects(writes[k], cs, secrets)
  }

  lemma RespectfulWriteKeeps(r: Remote, w: Write, inputs: Inputs, cs: seq<Customer>, secrets: Secrets)
    requires AllConsistent(r, cs, secrets) && Respects(w, cs, secrets)
    ensures AllConsistent(Apply(r, w), cs, secrets)
    ensures !Refused(r, inputs, cs) ==> !Refused(Apply(r, w), inputs, cs)
  {
  }

  lemma {:induction false} RespectfulWritesKeep(r: Remote, writes: seq<Write>, inputs: Inputs, cs: seq<Customer>, secrets: Secrets)
    requires AllConsistent(r, cs, secrets) && AllRespect(writes, cs, secrets)
    ensures AllConsistent(ApplyAll(r, writes), cs, secrets)
    ensures !Refused(r, inputs, cs) ==> !Refused(ApplyAll(r, writes), inputs, cs)
  {
    if writes != [] {
      var front := writes[..|writes| - 1];
      RespectfulWritesKeep(r, front, inputs, cs, secrets);
      assert Respects(writes[|writes| - 1], cs, secrets);
      RespectfulWriteKeeps(ApplyAll(r, front), writes[|writes| - 1], inputs, cs, secrets);
    }
  }

  lemma RespectJoins(first: seq<Write>, rest: seq<Write>, cs: seq<Customer>, secrets: Secrets)
    requires AllRespect(first, cs, secrets) && AllRespect(rest, cs, secrets)
    ensures AllRespect(first + rest, cs, secrets)
  {
  }

  /** The one secret a customer's writes save is the customer's own ledger key. */
  lemma SavesOwnKey(r: Remote, c: Customer, inputs: Inputs, mine: Mine, s: Supply)
    ensures var writes := CustomerWrites(r, c, inputs, mine, s);
            forall k | 0 <= k < |writes| ::
              writes[k].SaveSecret? ==> writes[k] == SaveSecret(c.externalId, LedgerKeyOf(mine, s))
  {
  }

  lemma OwnKeyRespects(all: seq<Customer>, c: Customer, secrets: Secrets, s: Supply)
    requires Distinct(all) && c in all
    ensures Respects(SaveSecret(c.externalId, LedgerKeyOf(MineOf(secrets, c), s)), all, secrets)
  {
    var at :| 0 <= at < |all| && all[at] == c;
    assert forall i | 0 <= i < |all| :: all[i].externalId == c.externalId ==> i == at;
  }

  lemma HeadRespects(r: Remote, cs: seq<Customer>, inputs: Inputs, secrets: Secrets, supply: Supplies, all: seq<Customer>)
    requires cs != [] && Distinct(all) && cs[0] in all
    ensures AllRespect(HeadWrites(r, cs, inputs, secrets, supply), all, secrets)
  {
    var mine, s := MineOf(secrets, cs[0]), SupplyOf(supply, cs[0].slug);
    SavesOwnKey(r, cs[0], inputs, mine, s);
    OwnKeyRespects(all, cs[0], secrets, s);
  }

  /** `all` lists every customer, of which `cs` are still to be handled. */
  lemma {:induction false} PlannedWritesRespect(r: Remote, cs: seq<Customer>, inputs: Inputs, secrets: Secrets,
                                               supply: Supplies, all: seq<Customer>)
    requires Distinct(all) && forall c | c in cs :: c in all
    ensures AllRespect(WritesFor(r, cs, inputs, secrets, supply), all, secrets)
    decreases |cs|
  {
    if cs != [] {
      var head := HeadWrites(r, cs, inputs, secrets, supply);
      var rest := ApplyAll(r, head);
      HeadRespects(r, cs, inputs, secrets, supply, all);
      PlannedWritesRespect(rest, cs[1..], inputs, secrets, supply, all);
      RespectJoins(head, WritesFor(rest, cs[1..], inputs, secrets, supply), all, secrets);
    }
  }

  lemma AcmeRespects(r: Remote, inputs: Inputs, cs: seq<Customer>, secrets: Secrets)
    requires r.acme.Some?
    ensures AllRespect(AcmeWrites(r, inputs), cs, secrets)
  {
  }

  lemma PlanRespects(r: Remote, inputs: Inputs, cs: seq<Customer>, secrets: Secrets, supply: Supplies, done: nat)
    requires r.acme.Some? && Distinct(cs) && done <= |Plan(r, inputs, cs, secrets, supply)|
    ensures AllRespect(Plan(r, inputs, cs, secrets, supply)[..done], cs, secrets)
  {
    var acme := AcmeWrites(r, inputs);
    AcmeRespects(r, inputs, cs, secrets);
    PlannedWritesRespect(ApplyAll(r, acme), cs, inputs, secrets, supply, cs);
    RespectJoins(acme, WritesFor(ApplyAll(r, acme), cs, inputs, secrets, supply), cs, secrets);
  }

  /**
   * A run cut off after any number of its writes loses its secrets file, and a
   * rerun with the old one still reaches the world: each vault ends with the key
   * the rerun returns.
   */
  lemma CutOffRunConverges(r: Remote, inputs: Inputs, cs: seq<Customer>, secrets: Secrets,
                           supply: Supplies, done: nat, later: Supplies)
    requires !Refused(r, inputs, cs) && Distinct(cs) && AllConsistent(r, cs, secrets)
    requires done <= |Plan(r, inputs, cs, secrets, supply)|
    requires FreshKeys(ApplyAll(r, Plan(r, inputs, cs, secrets, supply)[..done]), cs, later)
    ensures var left := ApplyAll(r, Plan(r, inputs, cs, secrets, supply)[..done]);
            && !Refused(left, inputs, cs)
            && Converged(ApplyAll(left, Plan(left, inputs, cs, secrets, later)), inputs, cs,
                         Returned(left, inputs, cs, secrets, later))
  {
    var plan := Plan(r, inputs, cs, secrets, supply);
    PlanRespects(r, inputs, cs, secrets, supply, done);
    RespectfulWritesKeep(r, plan[..done], inputs, cs, secrets);
    RunConverges(ApplyAll(r, plan[..done]), inputs, cs, secrets, later);
  }

  /* ------------------------------------- dry runs -------------------------------------- */

  /** A missing organization is one change; what would go in it is not looked at. */
  function DryCustomer(r: Remote, c: Customer, inputs: Inputs, mine: Mine, s: Supply): nat {
    if c.externalId !in r.children then 1 else |CustomerWrites(r, c, inputs, mine, s)|
  }

  function DryCustomers(r: Remote, cs: seq<Customer>, inputs: Inputs, secrets: Secrets, supply: Supplies): nat {
    if cs == [] then 0
    else DryCustomer(r, cs[0], inputs, MineOf(secrets, cs[0]), SupplyOf(supply, cs[0].slug))
         + DryCustomers(r, cs[1..], inputs, secrets, supply)
  }

  /** The changes a dry run reports. */
  function DryCount(r: Remote, inputs: Inputs, cs: seq<Customer>, secrets: Secrets, supply: Supplies): nat
    requires r.acme.Some?
  {
    |AcmeWrites(r, inputs)| + DryCustomers(r, cs, inputs, secrets, supply)
  }

  lemma DryCustomerZeroIff(r: Remote, c: Customer, inputs: Inputs, mine: Mine, s: Supply)
    ensures DryCustomer(r, c, inputs, mine, s) == 0 <==> CustomerWrites(r, c, inputs, mine, s) == []
  {
  }

  lemma {:induction false} DryCustomersZeroIff(r: Remote, cs: seq<Customer>, inputs: Inputs, secrets: Secrets, supply: Supplies)
    ensures DryCustomers(r, cs, inputs, secrets, supply) == 0 <==> WritesFor(r, cs, inputs, secrets, supply) == []
  {
    if cs != [] {
      DryCustomerZeroIff(r, cs[0], inputs, MineOf(secrets, cs[0]), SupplyOf(supply, cs[0].slug));
      DryCustomersZeroIff(r, cs[1..], inputs, secrets, supply);
    }
  }

  /** A dry run reports nothing to change exactly when applying would write nothing. */
  lemma DryRunZeroIff(r: Remote, inputs: Inputs, cs: seq<Customer>, secrets: Secrets, supply: Supplies)
    requires r.acme.Some?
    ensures DryCount(r, inputs, cs, secrets, supply) == 0 <==> Plan(r, inputs, cs, secrets, supply) == []
  {
    DryCustomersZeroIff(r, cs, inputs, secrets, supply);
  }

  /* ----------------------------------- the setup itself --------------------------------- */

  /** The remote as the setup changes it, with the writes made so far. */
  class StigmerPort {
    var remote: Remote
    var writes: seq<Write>
    ghost const start: Remote

    /** At any moment the remote is what it was with exactly the writes so far: where a cut-off leaves it. */
    ghost predicate Valid()
      reads this
    {
      remote == ApplyAll(start, writes)
    }

    constructor (remote: Remote)
      ensures Valid() && this.remote == remote && start == remote && writes == []
    {
      this.remote, start, writes := remote, remote, [];
    }

    /** Makes a write that is needed, unless this is a dry run; counts it either way. */
    method WriteIf(needed: bool, w: Write, apply: bool) returns (changed: nat)
      requires Valid()
      modifies this
      ensures Valid()
      ensures writes == old(writes) + If(apply && needed, w)
      ensures remote == ApplyAll(old(remote), If(apply && needed, w))
      ensures changed == if needed then 1 else 0
    {
      ApplyIf(remote, apply && needed, w);
      changed := if needed then 1 else 0;
      if apply && needed {
        assert (writes + [w])[..|writes|] == writes;
        writes := writes + [w];
        remote := Apply(remote, w);
      }
    }
  }

  function Made(apply: bool, planned: seq<Write>): seq<Write> {
    if apply then planned else []
  }

  /** The organization and its vault. A dry run stops where the organization is missing. */
  method ConvergeVault(port: StigmerPort, c: Customer, mine: Mine, s: Supply, apply: bool)
    returns (child: Option<Child>, changed: nat)
    requires port.Valid()
    modifies port
    ensures port.Valid()
    ensures port.writes == old(port.writes) + Made(apply, VaultWrites(old(port.remote), c, mine, s))
    ensures child.None? <==> !apply && c.externalId !in old(port.remote).children
    ensures child.Some? ==> child.value == Start(old(port.remote), c, s)
    ensures changed == if child.None? then 1 else |VaultWrites(old(port.remote), c, mine, s)|
  {
    var id, before := c.externalId, port.remote;
    ghost var log := port.writes;
    changed := port.WriteIf(id !in before.children, CreateChild(id, s.childEmbedding), apply);
    if id !in before.children && !apply {
      return None, changed;
    }
    var found := Start(before, c, s);
    var unsaved := mine.ledgerKey.None? || HeldSecret(found).None?;
    MadeThree(log,
              id !in before.children, CreateChild(id, s.childEmbedding), found.vault.None?, CreateVault(id),
              unsaved, SaveSecret(id, LedgerKeyOf(mine, s)), apply);
    var n := port.WriteIf(found.vault.None?, CreateVault(id), apply);
    changed := changed + n;
    n := port.WriteIf(unsaved, SaveSecret(id, LedgerKeyOf(mine, s)), apply);
    changed := changed + n;
    child := Some(found);
  }

  /** The minting account, its key and the embedding settings. */
  method ConvergeMinter(port: StigmerPort, child: Child, c: Customer, inputs: Inputs, mine: Mine, s: Supply, apply: bool)
    returns (acts: bool, changed: nat)
    requires port.Valid()
    modifies port
    ensures port.Valid()
    ensures port.writes == old(port.writes) + Made(apply, MinterWrites(old(port.remote).keys, child, c, inputs, mine, s))
    ensures acts <==> KeyActs(old(port.remote).keys, mine, child.minter)
    ensures changed == |MinterWrites(old(port.remote).keys, child, c, inputs, mine, s)|
  {
    acts := KeyActs(port.remote.keys, mine, child.minter);
    var wanted := ChildEmbedding(inputs, c);
    changed := port.WriteIf(child.minter.None?, CreateMinter(c.externalId, s.minterId), apply);
    var n := port.WriteIf(!acts, CreateKey(MinterOf(child, s), s.minterKey), apply);
    changed := changed + n;
    n := port.WriteIf(!SameEmbedding(child.embedding, wanted), SetChild(c.externalId, wanted), apply);
    changed := changed + n;
  }

  /** The customer's part: what it writes, in order, and the entry it leaves in the file. */
  method ConvergeCustomer(port: StigmerPort, c: Customer, inputs: Inputs, mine: Mine, s: Supply, apply: bool)
    returns (entry: Mine, changed: nat)
    requires port.Valid()
    modifies port
    ensures port.Valid()
    ensures port.writes == old(port.writes) + Made(apply, CustomerWrites(old(port.remote), c, inputs, mine, s))
    ensures apply ==> entry == MineAfter(old(port.remote), c, mine, s)
                      && changed == |CustomerWrites(old(port.remote), c, inputs, mine, s)|
    ensures !apply ==> changed == DryCustomer(old(port.remote), c, inputs, mine, s)
  {
    ghost var before, log := port.remote, port.writes;
    var child;
    child, changed := ConvergeVault(port, c, mine, s, apply);
    if child.None? {
      return mine, changed;
    }
    KeysUntouched(port.start, log, before, c, mine, s, apply);
    MadeJoin(log, VaultWrites(before, c, mine, s), MinterWrites(before.keys, child.value, c, inputs, mine, s), apply);
    var acts, n := ConvergeMinter(port, child.value, c, inputs, mine, s, apply);
    changed := changed + n;
    entry := Mine(if acts then mine.minterKey else Some(s.minterKey), Some(LedgerKeyOf(mine, s)));
  }

  /** Where planned writes take the remote, when they are made. */
  lemma RemoteAfter(start: Remote, log: seq<Write>, before: Remote, planned: seq<Write>, apply: bool)
    requires before == ApplyAll(start, log)
    ensures ApplyAll(start, log + Made(apply, planned)) == if apply then ApplyAll(before, planned) else before
  {
    if apply {
      ApplyAllConcat(start, log, planned);
    } else {
      assert log + [] == log;
    }
  }

  lemma MadeJoin(log: seq<Write>, a: seq<Write>, b: seq<Write>, apply: bool)
    ensures log + Made(apply, a) + Made(apply, b) == log + Made(apply, a + b)
  {
  }

  lemma MadeThree(log: seq<Write>, a: bool, u: Write, b: bool, v: Write, c: bool, w: Write, apply: bool)
    ensures log + If(apply && a, u) + If(apply && b, v) + If(apply && c, w) == log + Made(apply, If(a, u) + If(b, v) + If(c, w))
  {
  }

  lemma KeysUntouched(start: Remote, log: seq<Write>, before: Remote, c: Customer, mine: Mine, s: Supply, apply: bool)
    requires before == ApplyAll(start, log)
    ensures ApplyAll(start, log + Made(apply, VaultWrites(before, c, mine, s))).keys == before.keys
  {
    RemoteAfter(start, log, before, VaultWrites(before, c, mine, s), apply);
    VaultWritesEffect(before, c, mine, s);
  }

  /** Acme's own part, after the refusals. */
  method ConvergeAcme(port: StigmerPort, inputs: Inputs, apply: bool) returns (changed: nat)
    requires port.Valid() && port.remote.acme.Some?
    modifies port
    ensures port.Valid()
    ensures changed == |AcmeWrites(old(port.remote), inputs)|
    ensures port.writes == old(port.writes) + Made(apply, AcmeWrites(old(port.remote), inputs))
  {
    var before := port.remote;
    var wanted := AcmeEmbedding(inputs);
    changed := port.WriteIf(!before.providerKey, SaveProviderKey, apply);
    var n := port.WriteIf(!SameEmbedding(before.acme.value, wanted), SetAcme(wanted), apply);
    changed := changed + n;
    n := port.WriteIf(!(before.agent.Some? && SameAgent(before.agent.value, inputs.agent)), PutAgent(inputs.agent), apply);
    changed := changed + n;
  }

  /** Every customer in turn, each on the remote the ones before it left. */
  method ConvergeCustomers(port: StigmerPort, cs: seq<Customer>, inputs: Inputs, secrets: Secrets,
                           supply: Supplies, apply: bool)
    returns (file: Secrets, changed: nat)
    requires port.Valid()
    modifies port
    ensures port.Valid()
    ensures port.writes == old(port.writes) + Made(apply, WritesFor(old(port.remote), cs, inputs, secrets, supply))
    ensures apply ==> file == SecretsFor(old(port.remote), cs, inputs, secrets, supply)
                      && changed == |WritesFor(old(port.remote), cs, inputs, secrets, supply)|
    ensures !apply ==> changed == DryCustomers(old(port.remote), cs, inputs, secrets, supply)
    decreases |cs|
  {
    if cs == [] {
      return secrets, 0;
    }
    ghost var before, log := port.remote, port.writes;
    var entry, n := ConvergeCustomer(port, cs[0], inputs, MineOf(secrets, cs[0]), SupplyOf(supply, cs[0].slug), apply);
    RemoteAfter(port.start, log, before, HeadWrites(before, cs, inputs, secrets, supply), apply);
    ghost var mid := port.remote;
    var rest, m := ConvergeCustomers(port, cs[1..], inputs, secrets, supply, apply);
    assert !apply ==> m == DryCustomers(mid, cs[1..], inputs, secrets, supply);
    file, changed := rest[cs[0].slug := entry], n + m;
    MadeJoin(log, HeadWrites(before, cs, inputs, secrets, supply), WritesFor(mid, cs[1..], inputs, secrets, supply), apply);
  }

  /** The setup past its refusals: the planned writes, each counted once, or in a dry run none. */
  method ConvergeAll(port: StigmerPort, inputs: Inputs, cs: seq<Customer>, secrets: Secrets, supply: Supplies, apply: bool)
    returns (file: Secrets, changed: nat)
    requires port.Valid() && port.remote.acme.Some?
    modifies port
    ensures port.Valid()
    ensures port.writes == old(port.writes) + Made(apply, Plan(old(port.remote), inputs, cs, secrets, supply))
    ensures apply ==> file == Returned(old(port.remote), inputs, cs, secrets, supply)
                      && changed == |Plan(old(port.remote), inputs, cs, secrets, supply)|
    ensures !apply ==> changed == DryCount(old(port.remote), inputs, cs, secrets, supply)
  {
    ghost var before, log := port.remote, port.writes;
    var acme := ConvergeAcme(port, inputs, apply);
    RemoteAfter(port.start, log, before, AcmeWrites(before, inputs), apply);
    ghost var mid := port.remote;
    var n;
    file, n := ConvergeCustomers(port, cs, inputs, secrets, supply, apply);
    assert !apply ==> n == DryCustomers(mid, cs, inputs, secrets, supply);
    changed := acme + n;
    MadeJoin(log, AcmeWrites(before, inputs), WritesFor(mid, cs, inputs, secrets, supply), apply);
  }

  /** The whole setup: a refused run changes nothing. */
  method Converge(port: StigmerPort, inputs: Inputs, cs: seq<Customer>, secrets: Secrets, supply: Supplies, apply: bool)
    returns (r: Result<(Secrets, nat), string>)
    requires port.Valid()
    modifies port
    ensures port.Valid()
    ensures r.Err? <==>
            || !("https://" <= inputs.ledgerUrl) || old(port.remote).acme.None? || old(port.remote).room < |cs|
            || (!old(port.remote).providerKey && inputs.anthropicKey == None)
    ensures r.Err? ==> port.writes == old(port.writes)
    ensures r.Ok? ==> port.writes == old(port.writes) + Made(apply, Plan(old(port.remote), inputs, cs, secrets, supply))
    ensures r.Ok? && apply ==>
              r.value == (Returned(old(port.remote), inputs, cs, secrets, supply),
                          |Plan(old(port.remote), inputs, cs, secrets, supply)|)
    ensures r.Ok? && !apply ==> r.value.1 == DryCount(old(port.remote), inputs, cs, secrets, supply)
  {
    if Refused(port.remote, inputs, cs) {
      return Err("refused");
    }
    var file, changed := ConvergeAll(port, inputs, cs, secrets, supply, apply);
    r := Ok((file, changed));
  }
}
