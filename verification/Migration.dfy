/** Migration of a scenario from the Portuguese format (internal/scenario/migration.go).

    The parsed document is walked with a context, because what a key or a value is renamed to
    depends on where it sits.  Here every node visited has a role, which says what it may be
    renamed to and which roles its children have; the walk of the source is `Rewriter` below.  */
module Migration {
  import opened Basics

  datatype Kind = Scalar | Mapping | Sequence | Other

  datatype Node = Node(kind: Kind, value: string, content: seq<Node>)

  // ----- Strings -----

  function TrimLeft(s: string): string {
    if s != [] && IsSpace(s[0]) then TrimLeft(s[1..]) else s
  }

  function TrimRight(s: string): (r: string)
    ensures r <= s
  {
    if s != [] && IsSpace(s[|s| - 1]) then TrimRight(s[..|s| - 1]) else s
  }

  function Trim(s: string): string { TrimRight(TrimLeft(s)) }

  predicate HasPrefix(s: string, prefix: string) { prefix <= s }

  predicate HasWord(s: string, word: string) {
    HasPrefix(s, word) || (s != [] && HasWord(s[1..], word))
  }

  /** Every occurrence replaced, from the left and without overlap. */
  function ReplaceAll(s: string, word: string, with: string): string
    requires word != []
  {
    if s == [] then []
    else if HasPrefix(s, word) then with + ReplaceAll(s[|word|..], word, with)
    else [s[0]] + ReplaceAll(s[1..], word, with)
  }

  /** The part of the text before the first occurrence of a character. */
  function UpTo(s: string, c: char): (r: string)
    ensures r <= s
  {
    if s == [] || s[0] == c then [] else [s[0]] + UpTo(s[1..], c)
  }

  // ----- Contexts and tables -----

  datatype Context =
    | TopLevel | LoadBlock | ProfileBody | AuthBlock | DataBlock | DataSource
    | GenerateBlock | GenerateField | MessagingBlock | BrokerBlock | BrokerAuth | TlsBlock
    | StepBlock | ExpectBlock | CaptureBlock | CaptureBody | HttpBlock | GraphqlBlock
    | KafkaBlock | AmqpBlock | AwaitBlock | AwaitSource | AwaitHttp | SloLimits

  function TopKeys(): map<string, string> {
    map[
      "nome" := "name", "alvo" := "target", "requer" := "requires", "variaveis" := "variables",
      "autenticacao" := "auth", "mensageria" := "messaging", "dados" := "data", "carga" := "load",
      "cenario" := "scenario"]
  }

  function StepKeys(): map<string, string> {
    map[
      "nome" := "name", "peso" := "weight", "captura" := "capture", "verificar" := "expect",
      "espera" := "expect", "aguardar" := "await"]
  }

  function Keys(where: Context): map<string, string> {
    match where
    case TopLevel => TopKeys()
    case LoadBlock => map[
      "modelo" := "model", "perfis" := "profiles", "usuarios" := "users",
      "duracao" := "duration", "intervalo_entre_iteracoes" := "thinkTime"]
    case ProfileBody => map["de" := "from", "ate" := "to", "taxa" := "rate", "durante" := "duration"]
    case AuthBlock => map[
      "tipo" := "type", "obter" := "obtain", "renovar_apos" := "refreshAfter",
      "cabecalho" := "header", "usuario" := "user", "senha" := "password"]
    case DataSource => map["arquivo" := "file", "consumo" := "consume", "semente" := "seed", "gerar" := "generate"]
    case GenerateField => map["tipo" := "type", "formato" := "format", "novo_a_cada" := "newEvery"]
    case BrokerBlock => map["enderecos" := "addresses", "autenticacao" := "auth"]
    case BrokerAuth => map["tipo" := "type", "usuario" := "user", "senha" := "password", "regiao" := "region"]
    case TlsBlock => map["certificado" := "certificate", "chave" := "key"]
    case StepBlock => StepKeys()
    case ExpectBlock => map["corpo_contem" := "bodyContains", "corpo_casa" := "bodyMatches", "cabecalho" := "header"]
    case CaptureBody => map["de" := "from", "padrao" := "default", "obrigatoria" := "required"]
    case HttpBlock => map[
      "metodo" := "method", "caminho" := "path", "cabecalhos" := "headers",
      "corpo" := "body", "seguir_redirect" := "followRedirects"]
    case GraphqlBlock => map[
      "consulta" := "query", "operacao" := "operation", "variaveis" := "variables",
      "caminho" := "path", "cabecalhos" := "headers"]
    case KafkaBlock => map[
      "topico" := "topic", "chave" := "key", "valor" := "value",
      "cabecalhos" := "headers", "particao" := "partition", "grupo" := "group"]
    case AmqpBlock => map[
      "troca" := "exchange", "rota" := "routingKey", "fila" := "queue", "corpo" := "body",
      "identidade" := "messageId", "cabecalhos" := "headers", "persistente" := "persistent", "confirmar" := "confirm"]
    case AwaitBlock => map[
      "ate" := "until", "intervalo" := "interval", "chave" := "key", "campo" := "field", "igual_a" := "equals"]
    case AwaitSource => map["topico" := "topic", "fila" := "queue", "enderecos" := "addresses"]
    case AwaitHttp => map["caminho" := "path"]
    case SloLimits => map[
      "erros" := "errors", "sucesso" := "success", "vazao" := "throughput", "taxa_efetiva" := "throughput",
      "jornada_p50" := "journeyP50", "jornada_p75" := "journeyP75", "jornada_p90" := "journeyP90",
      "jornada_p95" := "journeyP95", "jornada_p99" := "journeyP99", "jornada_max" := "journeyMax",
      "global_p50" := "globalP50", "global_p75" := "globalP75", "global_p90" := "globalP90",
      "global_p95" := "globalP95", "global_p99" := "globalP99", "global_max" := "globalMax"]
    case _ => map[]
  }

  datatype Table =
    | LoadModels | ProfileKinds | AuthKinds | ConsumeKinds | GeneratorKinds | NewEveryKinds
    | BrokerKinds | AcksKinds | RequirementKinds | SloScopes | Comparisons

  function Values(table: Table): map<string, string> {
    match table
    case LoadModels => map["aberto" := "open", "fechado" := "closed"]
    case ProfileKinds => map["rampa" := "ramp", "patamar" := "steady", "pico" := "spike", "constante" := "steady"]
    case AuthKinds => map["basica" := "basic", "cabecalho" := "header"]
    case ConsumeKinds => map[
      "sequencial" := "sequential", "aleatorio" := "random", "unico_por_usuario" := "uniquePerUser"]
    case GeneratorKinds => map[
      "sequencia" := "sequence", "numero" := "number", "inteiro" := "integer",
      "nome" := "name", "texto" := "text", "padrao" := "pattern"]
    case NewEveryKinds => map["iteracao" := "iteration", "uso" := "use"]
    case BrokerKinds => map[
      "sasl_plain" := "saslPlain", "scram_sha256" := "scramSha256",
      "scram_sha512" := "scramSha512", "msk_iam" := "mskIam", "certificado" := "certificate"]
    case AcksKinds => map["todos" := "all", "lider" := "leader", "nenhum" := "none"]
    case RequirementKinds => map["credencial" := "credential"]
    case SloScopes => map["jornada" := "journey", "regressao" := "regression"]
    case Comparisons => map["existe" := "exists", "contem" := "contains"]
  }

  // ----- Roles -----

  datatype Role =
    | Untouched
    | Block(where: Context)       // a mapping in this context
    | Profiles | Steps | Rules    // the three lists that are walked
    | Profile | Rule
    | Values_(table: Table)       // a list of values of this table
    | Key(where: Context)
    | Value(table: Table)
    | RuleTarget
    | Limits(first: bool)         // the limits of a rule; only the first mapping has its keys renamed
    | Limit
    | Compared | ComparedKey
    | Capture | Generator

  function RoleInDocument(name: string): Role {
    if name == "carga" || name == "load" then Block(LoadBlock)
    else if name == "cenario" || name == "scenario" then Steps
    else if name == "autenticacao" || name == "auth" then Block(AuthBlock)
    else if name == "dados" || name == "data" then Block(DataBlock)
    else if name == "mensageria" || name == "messaging" then Block(MessagingBlock)
    else if name == "tls" then Block(TlsBlock)
    else if name == "slo" then Rules
    else if name == "requer" || name == "requires" then Values_(RequirementKinds)
    else Untouched
  }

  function RoleInStep(name: string): Role {
    if name == "verificar" || name == "espera" || name == "expect" then Block(ExpectBlock)
    else if name == "captura" || name == "capture" then Block(CaptureBlock)
    else if name == "http" then Block(HttpBlock)
    else if name == "graphql" then Block(GraphqlBlock)
    else if name == "kafka" then Block(KafkaBlock)
    else if name == "amqp" then Block(AmqpBlock)
    else if name == "aguardar" || name == "await" then Block(AwaitBlock)
    else Untouched
  }

  /** What follows a key of this name in this context. */
  function RoleOfValue(where: Context, name: string, kind: Kind): Role {
    match where
    case TopLevel => RoleInDocument(name)
    case LoadBlock =>
      if name == "modelo" || name == "model" then Value(LoadModels)
      else if name == "perfis" || name == "profiles" then Profiles
      else Untouched
    case AuthBlock =>
      if name == "tipo" || name == "type" then Value(AuthKinds)
      else if name == "obter" || name == "obtain" then Block(StepBlock)
      else Untouched
    case DataBlock => Block(DataSource)
    case DataSource =>
      if name == "consumo" || name == "consume" then Value(ConsumeKinds)
      else if name == "gerar" || name == "generate" then Block(GenerateBlock)
      else Untouched
    case GenerateBlock => if kind == Mapping then Block(GenerateField) else Generator
    case GenerateField =>
      if name == "tipo" || name == "type" then Value(GeneratorKinds)
      else if name == "novo_a_cada" || name == "newEvery" then Value(NewEveryKinds)
      else Untouched
    case MessagingBlock => Block(BrokerBlock)
    case BrokerBlock =>
      if name == "autenticacao" || name == "auth" then Block(BrokerAuth)
      else if name == "tls" then Block(TlsBlock)
      else Untouched
    case BrokerAuth => if name == "tipo" || name == "type" then Value(BrokerKinds) else Untouched
    case StepBlock => RoleInStep(name)
    case ExpectBlock => if name == "json" then Compared else Untouched
    case CaptureBlock => if kind == Mapping then Block(CaptureBody) else Capture
    case CaptureBody => if name == "de" || name == "from" then Capture else Untouched
    case KafkaBlock => if name == "acks" then Value(AcksKinds) else Untouched
    case AwaitBlock =>
      if name == "kafka" || name == "amqp" then Block(AwaitSource)
      else if name == "http" then Block(AwaitHttp)
      else if name == "ate" || name == "until" then Compared
      else Untouched
    case _ => Untouched
  }

  function RoleOfChild(role: Role, node: Node, i: nat): Role
    requires i < |node.content|
  {
    var n, isKey := |node.content|, i % 2 == 0 && i + 1 < |node.content|;
    if node.kind == Mapping then
      match role
      case Block(where) =>
        if isKey then Key(where)
        else if i % 2 == 1 then RoleOfValue(where, node.content[i - 1].value, node.content[i].kind)
        else Untouched
      case Profile =>
        if n < 2 then Untouched
        else if i == 0 then Value(ProfileKinds)
        else if i == 1 then Block(ProfileBody)
        else Untouched
      case Rule =>
        if n < 2 then Untouched
        else if i == 0 then RuleTarget
        else if i % 2 == 1 then Limits(i == 1)
        else Untouched
      case Limits(first) =>
        if isKey then (if first then Key(SloLimits) else Untouched) else if i % 2 == 1 then Limit else Untouched
      case Compared => if isKey then ComparedKey else if i % 2 == 1 then Value(Comparisons) else Untouched
      case _ => Untouched
    else if node.kind == Sequence then
      match role
      case Profiles => Profile
      case Steps => Block(StepBlock)
      case Rules => Rule
      case Values_(table) => Value(table)
      case _ => Untouched
    else Untouched
  }

  // ----- What a node is renamed to -----

  function RenamedKey(where: Context, name: string): string {
    if name in Keys(where) then Keys(where)[name] else name
  }

  function RenamedValue(table: Table, value: string): string {
    if Trim(value) in Values(table) then Values(table)[Trim(value)] else value
  }

  /** A step with no declared name reports under a key its protocol derives. */
  function RenamedDerivedStep(value: string, declared: set<string>): string {
    var name := Trim(value);
    if name in declared then value
    else if HasPrefix(name, "kafka produzir ") then "kafka produce " + name[15..]
    else if HasPrefix(name, "amqp publicar ") then "amqp publish " + name[14..]
    else if HasPrefix(name, "aguardar ") then "await " + name[9..]
    else value
  }

  function RenamedCapture(value: string): string {
    if value == "corpo" then "body"
    else if HasPrefix(value, "cabecalho:") then "header:" + value[10..]
    else value
  }

  function RenamedGenerator(value: string): string {
    var recipe := UpTo(value, '(');
    if Trim(recipe) in Values(GeneratorKinds)
    then Values(GeneratorKinds)[Trim(recipe)] + value[|recipe|..]
    else value
  }

  function RenamedTarget(value: string, declared: set<string>): string {
    if Trim(value) in Values(SloScopes) then Values(SloScopes)[Trim(value)] else RenamedDerivedStep(value, declared)
  }

  function Renamed(role: Role, node: Node, declared: set<string>): string {
    match role
    case Key(where) => RenamedKey(where, node.value)
    case Limit => if HasWord(node.value, "pior") then ReplaceAll(node.value, "pior", "worse") else node.value
    case ComparedKey => if node.value == "corpo_contem" then "bodyContains" else node.value
    case _ =>
      if node.kind != Scalar then node.value else
      match role
      case Value(table) => RenamedValue(table, node.value)
      case RuleTarget => RenamedTarget(node.value, declared)
      case Capture => RenamedCapture(node.value)
      case Generator => RenamedGenerator(node.value)
      case _ => node.value
  }

  /** The tree after the migration. */
  function Rewritten(node: Node, role: Role, declared: set<string>): Node {
    Node(node.kind, Renamed(role, node, declared),
         seq(|node.content|, i requires 0 <= i < |node.content| =>
           Rewritten(node.content[i], RoleOfChild(role, node, i), declared)))
  }

  // ----- Edits -----

  /** One rename; the node is given by the way to it from the root. */
  datatype Edit = Edit(path: seq<nat>, from: string, to: string)

  function OwnEdit(node: Node, role: Role, declared: set<string>, path: seq<nat>): multiset<Edit> {
    if Renamed(role, node, declared) == node.value then multiset{}
    else multiset{Edit(path, node.value, Renamed(role, node, declared))}
  }

  /** Every edit of the subtree. */
  function EditBag(node: Node, role: Role, declared: set<string>, path: seq<nat>): multiset<Edit>
    decreases node, |node.content| + 1
  {
    OwnEdit(node, role, declared, path) + ChildBags(node, role, declared, path, |node.content|)
  }

  /** Every edit below the first k children. */
  function ChildBags(node: Node, role: Role, declared: set<string>, path: seq<nat>, k: nat): multiset<Edit>
    requires k <= |node.content|
    decreases node, k
  {
    if k == 0 then multiset{} else
    var last := EditBag(node.content[k - 1], RoleOfChild(role, node, k - 1), declared, path + [k - 1]);
    ChildBags(node, role, declared, path, k - 1) + last
  }

  // ----- Renaming is final -----

  lemma DeclarationKeysAreFinal(where: Context, name: string)
    requires where == TopLevel || where == LoadBlock || where == ProfileBody
    ensures RenamedKey(where, name) !in Keys(where)
  {
  }

  lemma DataKeysAreFinal(where: Context, name: string)
    requires where == AuthBlock || where == DataSource || where == GenerateField
    ensures RenamedKey(where, name) !in Keys(where)
  {
  }

  lemma BrokerKeysAreFinal(where: Context, name: string)
    requires where == BrokerBlock || where == BrokerAuth || where == TlsBlock
    ensures RenamedKey(where, name) !in Keys(where)
  {
  }

  lemma StepKeysAreFinal(where: Context, name: string)
    requires where == StepBlock || where == ExpectBlock || where == CaptureBody || where == HttpBlock
    ensures RenamedKey(where, name) !in Keys(where)
  {
  }

  lemma AwaitKeysAreFinal(where: Context, name: string)
    requires where == GraphqlBlock || where == AwaitBlock || where == AwaitSource || where == AwaitHttp
    ensures RenamedKey(where, name) !in Keys(where)
  {
  }

  lemma MessageKeysAreFinal(where: Context, name: string)
    requires where == KafkaBlock || where == AmqpBlock
    ensures RenamedKey(where, name) !in Keys(where)
  {
  }

  lemma LimitKeysAreFinal(where: Context, name: string)
    requires where == SloLimits
    ensures RenamedKey(where, name) !in Keys(where)
  {
  }

  /** What a key is renamed to is never renamed again. */
  lemma {:induction false} KeysAreFinal(where: Context, name: string)
    ensures RenamedKey(where, name) !in Keys(where)
    ensures RenamedKey(where, RenamedKey(where, name)) == RenamedKey(where, name)
  {
    match where
    case DataBlock =>
    case GenerateBlock =>
    case MessagingBlock =>
    case CaptureBlock =>
    case TopLevel => DeclarationKeysAreFinal(where, name);
    case LoadBlock => DeclarationKeysAreFinal(where, name);
    case ProfileBody => DeclarationKeysAreFinal(where, name);
    case AuthBlock => DataKeysAreFinal(where, name);
    case DataSource => DataKeysAreFinal(where, name);
    case GenerateField => DataKeysAreFinal(where, name);
    case BrokerBlock => BrokerKeysAreFinal(where, name);
    case BrokerAuth => BrokerKeysAreFinal(where, name);
    case TlsBlock => BrokerKeysAreFinal(where, name);
    case StepBlock => StepKeysAreFinal(where, name);
    case ExpectBlock => StepKeysAreFinal(where, name);
    case CaptureBody => StepKeysAreFinal(where, name);
    case HttpBlock => StepKeysAreFinal(where, name);
    case GraphqlBlock => AwaitKeysAreFinal(where, name);
    case KafkaBlock => MessageKeysAreFinal(where, name);
    case AmqpBlock => MessageKeysAreFinal(where, name);
    case AwaitBlock => AwaitKeysAreFinal(where, name);
    case AwaitSource => AwaitKeysAreFinal(where, name);
    case AwaitHttp => AwaitKeysAreFinal(where, name);
    case SloLimits => LimitKeysAreFinal(where, name);
  }

  lemma PlainRole(name: string)
    requires name == "nome" || name == "alvo" || name == "name" || name == "target" || (|name| == 9 && name[0] == 'v')
    ensures RoleInDocument(name) == Untouched
  {
    assert |name| == 4 || |name| == 6 || |name| == 9;
  }

  lemma PlainTopKeys(name: string)
    requires name == "nome" || name == "alvo" || name == "variaveis"
    ensures name in TopKeys() && RoleInDocument(TopKeys()[name]) == Untouched == RoleInDocument(name)
  {
    hide RoleInDocument;
    assert TopKeys()[name] == if name == "nome" then "name" else if name == "alvo" then "target" else "variables";
    PlainRole(name);
    PlainRole(TopKeys()[name]);
  }

  lemma BlockTopKeys(name: string)
    requires name in TopKeys() && name != "nome" && name != "alvo" && name != "variaveis"
    ensures RoleInDocument(TopKeys()[name]) == RoleInDocument(name)
  {
    var to := TopKeys()[name];
    if name == "requer" {
      assert to == "requires";
    } else if name == "autenticacao" || name == "mensageria" {
      assert to == "auth" || to == "messaging";
    } else {
      assert to == "data" || to == "load" || to == "scenario";
    }
  }

  lemma TopKeysKeepTheirMeaning(name: string)
    requires name in TopKeys()
    ensures RoleInDocument(TopKeys()[name]) == RoleInDocument(name)
  {
    hide RoleInDocument, TopKeys;
    if name == "nome" || name == "alvo" || name == "variaveis" {
      PlainTopKeys(name);
    } else {
      BlockTopKeys(name);
    }
  }

  lemma StepKeysKeepTheirMeaning(name: string)
    requires name in StepKeys()
    ensures RoleInStep(StepKeys()[name]) == RoleInStep(name)
  {
  }

  lemma LoadKeysKeepTheirMeaning(where: Context, name: string, kind: Kind)
    requires where == LoadBlock || where == AuthBlock
    ensures RoleOfValue(where, RenamedKey(where, name), kind) == RoleOfValue(where, name, kind)
  {
  }

  lemma DataKeysKeepTheirMeaning(where: Context, name: string, kind: Kind)
    requires where == DataSource || where == GenerateField
    ensures RoleOfValue(where, RenamedKey(where, name), kind) == RoleOfValue(where, name, kind)
  {
  }

  lemma BrokerKeysKeepTheirMeaning(where: Context, name: string, kind: Kind)
    requires where == BrokerBlock || where == BrokerAuth
    ensures RoleOfValue(where, RenamedKey(where, name), kind) == RoleOfValue(where, name, kind)
  {
  }

  lemma ExpectKeysKeepTheirMeaning(where: Context, name: string, kind: Kind)
    requires where == ExpectBlock || where == CaptureBody
    ensures RoleOfValue(where, RenamedKey(where, name), kind) == RoleOfValue(where, name, kind)
  {
  }

  lemma KafkaKeysKeepTheirMeaning(name: string, kind: Kind)
    ensures RoleOfValue(KafkaBlock, RenamedKey(KafkaBlock, name), kind) == RoleOfValue(KafkaBlock, name, kind)
  {
  }

  lemma AwaitKeysKeepTheirMeaning(name: string, kind: Kind)
    ensures RoleOfValue(AwaitBlock, RenamedKey(AwaitBlock, name), kind) == RoleOfValue(AwaitBlock, name, kind)
  {
  }

  /** A key keeps its meaning: whatever it is renamed to leads the walk to the same place. */
  lemma {:induction false} KeysKeepTheirMeaning(where: Context, name: string, kind: Kind)
    ensures RoleOfValue(where, RenamedKey(where, name), kind) == RoleOfValue(where, name, kind)
  {
    hide TopKeys, StepKeys, RoleInDocument, RoleInStep;
    match where
    case TopLevel => if name in TopKeys() { TopKeysKeepTheirMeaning(name); }
    case StepBlock => if name in StepKeys() { StepKeysKeepTheirMeaning(name); }
    case LoadBlock => LoadKeysKeepTheirMeaning(where, name, kind);
    case AuthBlock => LoadKeysKeepTheirMeaning(where, name, kind);
    case DataSource => DataKeysKeepTheirMeaning(where, name, kind);
    case GenerateField => DataKeysKeepTheirMeaning(where, name, kind);
    case BrokerBlock => BrokerKeysKeepTheirMeaning(where, name, kind);
    case BrokerAuth => BrokerKeysKeepTheirMeaning(where, name, kind);
    case ExpectBlock => ExpectKeysKeepTheirMeaning(where, name, kind);
    case CaptureBody => ExpectKeysKeepTheirMeaning(where, name, kind);
    case KafkaBlock => KafkaKeysKeepTheirMeaning(name, kind);
    case AwaitBlock => AwaitKeysKeepTheirMeaning(name, kind);
    case _ =>
  }

  lemma ValuesAreNew(table: Table, word: string)
    requires word in Values(table)
    ensures Values(table)[word] !in Values(table)
  {
  }

  lemma ValuesAreTight(table: Table, word: string)
    requires word in Values(table)
    ensures var to := Values(table)[word]; to != [] && !IsSpace(to[0]) && !IsSpace(to[|to| - 1])
  {
  }

  /** What a value is renamed to is never renamed again. */
  lemma {:induction false} ValuesAreFinal(table: Table, value: string)
    ensures RenamedValue(table, RenamedValue(table, value)) == RenamedValue(table, value)
  {
    hide Trim, Values;
    if Trim(value) in Values(table) {
      ValuesAreNew(table, Trim(value));
      ValuesAreTight(table, Trim(value));
      TrimKeeps(Values(table)[Trim(value)]);
    }
  }

  lemma TrimKeeps(s: string)
    requires s != [] && !IsSpace(s[0]) && !IsSpace(s[|s| - 1])
    ensures Trim(s) == s
  {
  }

  /** Without leading space, trimming only cuts the end. */
  lemma TrimCutsTheEnd(s: string)
    requires s != [] && !IsSpace(s[0])
    ensures Trim(s) <= s && Trim(s) != []
  {
    TrimRightKeepsFirst(s);
  }

  lemma {:induction false} TrimRightKeepsFirst(s: string)
    requires s != [] && !IsSpace(s[0])
    ensures TrimRight(s) != []
  {
    if IsSpace(s[|s| - 1]) { TrimRightKeepsFirst(s[..|s| - 1]); }
  }

  // "pior" inside a limit becomes "worse", which leaves no "pior" behind.

  /** A character other than the first of the replacement was already there. */
  lemma FirstKept(s: string, word: string, with: string, c: char)
    requires word != [] && with != [] && c != with[0]
    requires ReplaceAll(s, word, with) != [] && ReplaceAll(s, word, with)[0] == c
    ensures s != [] && s[0] == c && !HasPrefix(s, word)
    ensures ReplaceAll(s, word, with)[1..] == ReplaceAll(s[1..], word, with)
  {
  }

  lemma NotRevived(s: string)
    requires !HasPrefix(s, "pior") && s != []
    ensures !HasPrefix(ReplaceAll(s, "pior", "worse"), "pior")
  {
    var word, with := "pior", "worse";
    var r := ReplaceAll(s, word, with);
    if HasPrefix(r, word) {
      assert r[0] == 'p' && r[1] == 'i' && r[2] == 'o' && r[3] == 'r';
      var r1 := ReplaceAll(s[1..], word, with);
      assert r == [s[0]] + r1;
      FirstKept(s[1..], word, with, 'i');
      var r2 := ReplaceAll(s[2..], word, with);
      assert s[1..][1..] == s[2..] && r2[0] == 'o';
      FirstKept(s[2..], word, with, 'o');
      assert s[2..][1..] == s[3..];
      FirstKept(s[3..], word, with, 'r');
      assert false;
    }
  }

  lemma {:induction false} NoWordLeft(s: string)
    ensures !HasWord(ReplaceAll(s, "pior", "worse"), "pior")
  {
    var word, with := "pior", "worse";
    if s != [] {
      if HasPrefix(s, word) {
        NoWordLeft(s[4..]);
        WorseHasNone(ReplaceAll(s[4..], word, with));
      } else {
        NoWordLeft(s[1..]);
        NotRevived(s);
        var r := ReplaceAll(s, word, with);
        assert r[1..] == ReplaceAll(s[1..], word, with);
      }
    }
  }

  lemma WorseHasNone(t: string)
    requires !HasWord(t, "pior")
    ensures !HasWord("worse" + t, "pior")
  {
    hide HasWord;
    SkipOne('e', t);
    SkipOne('s', ['e'] + t);
    SkipOne('r', ['s'] + (['e'] + t));
    SkipOne('o', ['r'] + (['s'] + (['e'] + t)));
    SkipOne('w', ['o'] + (['r'] + (['s'] + (['e'] + t))));
    assert "worse" + t == ['w'] + (['o'] + (['r'] + (['s'] + (['e'] + t))));
  }

  lemma SkipOne(c: char, t: string)
    requires c != 'p' && !HasWord(t, "pior")
    ensures !HasWord([c] + t, "pior")
  {
    assert ([c] + t)[1..] == t && ([c] + t)[0] == c;
  }

  lemma {:induction false} NothingToReplace(s: string, word: string, with: string)
    requires word != [] && !HasWord(s, word)
    ensures ReplaceAll(s, word, with) == s
  {
    if s != [] { NothingToReplace(s[1..], word, with); }
  }

  // ----- Renaming is final, role by role -----

  lemma DerivedStepsAreFinal(value: string, declared: set<string>)
    ensures RenamedTarget(RenamedTarget(value, declared), declared) == RenamedTarget(value, declared)
  {
    var name, to := Trim(value), RenamedTarget(value, declared);
    hide Trim;
    if name in Values(SloScopes) {
      TrimKeeps(to);
    } else if to != value {
      TrimCutsTheEnd(to);
      EnglishStep(Trim(to), to);
    }
  }

  /** Nothing that begins like a derived English key is a scope or a derived Portuguese key. */
  lemma EnglishStep(t: string, to: string)
    requires t != [] && t <= to
    requires HasPrefix(to, "kafka produce ") || HasPrefix(to, "amqp publish ") || HasPrefix(to, "await ")
    ensures t !in Values(SloScopes)
    ensures !HasPrefix(t, "kafka produzir ") && !HasPrefix(t, "amqp publicar ") && !HasPrefix(t, "aguardar ")
  {
    assert t[0] == to[0];
    assert HasPrefix(to, "kafka produce ") ==> to[0] == 'k' && to[1] == 'a' && to[11] == 'c';
    assert HasPrefix(to, "amqp publish ") ==> to[0] == 'a' && to[1] == 'm' && to[10] == 's';
    assert HasPrefix(to, "await ") ==> to[0] == 'a' && to[1] == 'w';
  }

  lemma CapturesAreFinal(value: string)
    ensures RenamedCapture(RenamedCapture(value)) == RenamedCapture(value)
  {
    if value != "corpo" && HasPrefix(value, "cabecalho:") {
      var to := "header:" + value[10..];
      assert to[0] == 'h';
      assert !HasPrefix(to, "cabecalho:");
    }
  }

  lemma {:induction false} UpToOf(word: string, rest: string, c: char)
    requires c !in word && (rest == [] || rest[0] == c)
    ensures UpTo(word + rest, c) == word
  {
    if word != [] {
      UpToOf(word[1..], rest, c);
      assert (word + rest)[1..] == word[1..] + rest;
    } else {
      assert word + rest == rest;
    }
  }

  lemma {:induction false} UpToStops(s: string, c: char)
    ensures c !in UpTo(s, c) && (s[|UpTo(s, c)|..] == [] || s[|UpTo(s, c)|..][0] == c)
  {
    if s != [] && s[0] != c { UpToStops(s[1..], c); }
  }

  lemma GeneratorsAreFinal(value: string)
    ensures RenamedGenerator(RenamedGenerator(value)) == RenamedGenerator(value)
  {
    hide Trim;
    var recipe := UpTo(value, '(');
    if Trim(recipe) in Values(GeneratorKinds) {
      var to, rest := Values(GeneratorKinds)[Trim(recipe)], value[|recipe|..];
      ValuesAreNew(GeneratorKinds, Trim(recipe));
      ValuesAreTight(GeneratorKinds, Trim(recipe));
      TrimKeeps(to);
      UpToStops(value, '(');
      assert '(' !in to;
      UpToOf(to, rest, '(');
    }
  }

  /** Every rename is final: a node renamed in its role is left alone in that role. */
  lemma {:induction false} RenamingIsFinal(role: Role, node: Node, after: Node, declared: set<string>)
    requires after.kind == node.kind && after.value == Renamed(role, node, declared)
    ensures Renamed(role, after, declared) == after.value
  {
    hide Keys, Values, Trim, RenamedKey, RenamedValue, RenamedTarget, RenamedCapture, RenamedGenerator;
    hide HasWord, ReplaceAll;
    match role
    case Key(where) => KeysAreFinal(where, node.value);
    case Limit => NoWordLeft(node.value);
    case Value(table) => ValuesAreFinal(table, node.value);
    case RuleTarget => DerivedStepsAreFinal(node.value, declared);
    case Capture => CapturesAreFinal(node.value);
    case Generator => GeneratorsAreFinal(node.value);
    case _ =>
  }

  // ----- Values that are not single words -----

  /** Blanks around a word make no difference to what it is. */
  lemma {:induction false} TrimDropsBlanks(s: string)
    requires s != [] && !IsSpace(s[0]) && !IsSpace(s[|s| - 1])
    ensures Trim(" " + s) == s && Trim(s + " ") == s && Trim(" " + s + " ") == s
  {
    TrimKeeps(s);
    assert TrimLeft(" " + s) == s by { assert (" " + s)[1..] == s; }
    assert TrimRight(s + " ") == s by { assert (s + " ")[..|s|] == s; }
    assert TrimLeft(" " + s + " ") == s + " " by { assert (" " + s + " ")[1..] == s + " "; }
  }

  lemma OldWordsAreTight(table: Table, word: string)
    requires word in Values(table)
    ensures word != [] && !IsSpace(word[0]) && !IsSpace(word[|word| - 1])
  {
  }

  /** An old word is translated, with blanks around it or not; a new word is left as it is. */
  lemma {:induction false} WordsAreTranslated(table: Table, word: string)
    requires word in Values(table)
    ensures var to := Values(table)[word];
            && to != word
            && RenamedValue(table, word) == to && RenamedValue(table, " " + word + " ") == to
            && RenamedValue(table, to) == to
  {
    OldWordsAreTight(table, word);
    TrimKeeps(word);
    TrimDropsBlanks(word);
    ValuesAreNew(table, word);
    ValuesAreTight(table, word);
    TrimKeeps(Values(table)[word]);
    hide Values, Trim;
  }

  /** Captures and generators keep what follows the word that is translated. */
  lemma {:induction false} PhrasesKeepTheirRest(rest: string)
    ensures RenamedCapture("cabecalho:" + rest) == "header:" + rest
    ensures RenamedGenerator("numero(" + rest) == "number(" + rest
  {
    assert ("cabecalho:" + rest)[10..] == rest;
    GeneratorKeepsArguments(rest);
    hide RenamedGenerator;
  }

  /** In the limit of a rule the old word for "worse" is replaced wherever it stands. */
  lemma {:induction false} LimitsSayWorse(before: string, after: string, node: Node, declared: set<string>)
    requires 'p' !in before && !HasWord(after, "pior") && node.value == before + "pior" + after
    ensures Renamed(Limit, node, declared) == before + "worse" + after
  {
    ReplacesThere(before, after);
    HasItThere(before, after);
    hide ReplaceAll, HasWord;
  }

  lemma {:induction false} HasItThere(before: string, after: string)
    ensures HasWord(before + "pior" + after, "pior")
  {
    var s := before + "pior" + after;
    if before == [] {
      assert s == "pior" + after;
      assert "pior" <= s;
    } else {
      HasItThere(before[1..], after);
      assert s[1..] == before[1..] + "pior" + after;
    }
  }

  lemma ReplaceSkips(c: char, s: string, word: string, with: string)
    requires word != [] && word[0] != c
    ensures ReplaceAll([c] + s, word, with) == [c] + ReplaceAll(s, word, with)
  {
    assert ([c] + s)[1..] == s;
  }

  lemma ReplaceTakes(s: string, word: string, with: string)
    requires word != []
    ensures ReplaceAll(word + s, word, with) == with + ReplaceAll(s, word, with)
  {
    assert (word + s)[|word|..] == s;
  }

  lemma {:induction false} ReplacesThere(before: string, after: string)
    requires 'p' !in before && !HasWord(after, "pior")
    ensures ReplaceAll(before + "pior" + after, "pior", "worse") == before + "worse" + after
  {
    hide ReplaceAll, HasWord;
    if before == [] {
      assert before + "pior" + after == "pior" + after && before + "worse" + after == "worse" + after;
      ReplaceTakes(after, "pior", "worse");
      NothingToReplace(after, "pior", "worse");
    } else {
      var c, rest := before[0], before[1..];
      assert c in before;
      ReplacesThere(rest, after);
      ReplaceSkips(c, rest + "pior" + after, "pior", "worse");
      assert before + "pior" + after == [c] + (rest + "pior" + after);
      assert before + "worse" + after == [c] + (rest + "worse" + after);
    }
  }

  /** A rule on a step name derived by its protocol follows the name, and keeps the rest of it; a name
      the author declared is left alone. */
  lemma {:induction false} DerivedNamesKeepTheirRest(rest: string, declared: set<string>)
    requires rest != [] && !IsSpace(rest[|rest| - 1])
    ensures var name := "kafka produzir " + rest;
            RenamedTarget(name, declared) == if name in declared then name else "kafka produce " + rest
    ensures var name := "amqp publicar " + rest;
            RenamedTarget(name, declared) == if name in declared then name else "amqp publish " + rest
    ensures var name := "aguardar " + rest;
            RenamedTarget(name, declared) == if name in declared then name else "await " + rest
  {
    hide RenamedTarget;
    KafkaName(rest, declared);
    AmqpName(rest, declared);
    AwaitName(rest, declared);
  }

  lemma KafkaName(rest: string, declared: set<string>)
    requires rest != [] && !IsSpace(rest[|rest| - 1])
    ensures var name := "kafka produzir " + rest;
            RenamedTarget(name, declared) == if name in declared then name else "kafka produce " + rest
  {
    DerivedPhrase("kafka produzir ", rest);
    hide Trim, Values;
  }

  lemma AmqpName(rest: string, declared: set<string>)
    requires rest != [] && !IsSpace(rest[|rest| - 1])
    ensures var name := "amqp publicar " + rest;
            RenamedTarget(name, declared) == if name in declared then name else "amqp publish " + rest
  {
    DerivedPhrase("amqp publicar ", rest);
    hide Trim, Values;
    assert ("amqp publicar " + rest)[0] == 'a';
  }

  lemma AwaitName(rest: string, declared: set<string>)
    requires rest != [] && !IsSpace(rest[|rest| - 1])
    ensures var name := "aguardar " + rest;
            RenamedTarget(name, declared) == if name in declared then name else "await " + rest
  {
    DerivedPhrase("aguardar ", rest);
    hide Trim, Values;
    assert ("aguardar " + rest)[0] == 'a' && ("aguardar " + rest)[1] == 'g';
  }

  lemma GeneratorKeepsArguments(rest: string)
    ensures RenamedGenerator("numero(" + rest) == "number(" + rest
  {
    UpToOf("numero", "(" + rest, '(');
    assert "numero(" + rest == "numero" + ("(" + rest);
    TrimKeeps("numero");
    assert ("numero" + ("(" + rest))[6..] == "(" + rest;
    assert "number" + ("(" + rest) == "number(" + rest;
  }

  lemma DerivedPhrase(word: string, rest: string)
    requires |word| >= 9 && !IsSpace(word[0]) && rest != [] && !IsSpace(rest[|rest| - 1])
    ensures Trim(word + rest) == word + rest && (word + rest)[|word|..] == rest
    ensures word + rest !in Values(SloScopes)
  {
    TrimKeeps(word + rest);
  }

  // ----- What the new format says -----

  /** What stands under each key of the new format, by its new words alone. */
  function NewFormat(where: Context): map<string, Role> {
    match where
    case TopLevel => map[
      "load" := Block(LoadBlock), "scenario" := Steps, "auth" := Block(AuthBlock), "data" := Block(DataBlock),
      "messaging" := Block(MessagingBlock), "tls" := Block(TlsBlock), "slo" := Rules,
      "requires" := Values_(RequirementKinds)]
    case LoadBlock => map["model" := Value(LoadModels), "profiles" := Profiles]
    case AuthBlock => map["type" := Value(AuthKinds), "obtain" := Block(StepBlock)]
    case DataSource => map["consume" := Value(ConsumeKinds), "generate" := Block(GenerateBlock)]
    case GenerateField => map["type" := Value(GeneratorKinds), "newEvery" := Value(NewEveryKinds)]
    case BrokerBlock => map["auth" := Block(BrokerAuth), "tls" := Block(TlsBlock)]
    case BrokerAuth => map["type" := Value(BrokerKinds)]
    case StepBlock => map[
      "expect" := Block(ExpectBlock), "capture" := Block(CaptureBlock), "http" := Block(HttpBlock),
      "graphql" := Block(GraphqlBlock), "kafka" := Block(KafkaBlock), "amqp" := Block(AmqpBlock),
      "await" := Block(AwaitBlock)]
    case ExpectBlock => map["json" := Compared]
    case CaptureBody => map["from" := Capture]
    case KafkaBlock => map["acks" := Value(AcksKinds)]
    case AwaitBlock => map[
      "kafka" := Block(AwaitSource), "amqp" := Block(AwaitSource), "http" := Block(AwaitHttp), "until" := Compared]
    case _ => map[]
  }

  /** Three blocks have keys of the author's choice, with the same thing under each. */
  function RoleInNewFormat(where: Context, key: string, kind: Kind): Role {
    match where
    case DataBlock => Block(DataSource)
    case MessagingBlock => Block(BrokerBlock)
    case GenerateBlock => if kind == Mapping then Block(GenerateField) else Generator
    case CaptureBlock => if kind == Mapping then Block(CaptureBody) else Capture
    case _ => if key in NewFormat(where) then NewFormat(where)[key] else Untouched
  }

  lemma KnownTopKeys(key: string)
    requires key in NewFormat(TopLevel)
    ensures RoleInDocument(key) == NewFormat(TopLevel)[key]
  {
  }

  lemma OtherTopKeys(key: string)
    requires key !in Keys(TopLevel) && key !in NewFormat(TopLevel)
    ensures RoleInDocument(key) == Untouched
  {
  }

  lemma NewTopKeys(key: string)
    requires key !in Keys(TopLevel)
    ensures RoleInDocument(key) == RoleInNewFormat(TopLevel, key, Scalar)
  {
    hide NewFormat, Keys, RoleInDocument;
    if key in NewFormat(TopLevel) {
      KnownTopKeys(key);
    } else {
      OtherTopKeys(key);
    }
  }

  lemma NewStepKeys(key: string)
    requires key !in Keys(StepBlock)
    ensures RoleInStep(key) == RoleInNewFormat(StepBlock, key, Scalar)
  {
  }

  lemma NewLoadKeys(where: Context, key: string, kind: Kind)
    requires key !in Keys(where) && (where == LoadBlock || where == AuthBlock || where == DataSource)
    ensures RoleOfValue(where, key, kind) == RoleInNewFormat(where, key, kind)
  {
  }

  lemma NewFieldKeys(where: Context, key: string, kind: Kind)
    requires key !in Keys(where) && (where == GenerateField || where == BrokerBlock || where == BrokerAuth)
    ensures RoleOfValue(where, key, kind) == RoleInNewFormat(where, key, kind)
  {
  }

  lemma NewAwaitKeys(where: Context, key: string, kind: Kind)
    requires key !in Keys(where) && (where == CaptureBody || where == KafkaBlock || where == AwaitBlock)
    ensures RoleOfValue(where, key, kind) == RoleInNewFormat(where, key, kind)
  {
  }

  /** The walk reads a document as the new format reads its translation: what it does below a key, old
      or new, is what the new format has under the new word for it. */
  lemma {:induction false} WalkFollowsTheNewFormat(where: Context, name: string, kind: Kind)
    ensures RoleOfValue(where, name, kind) == RoleInNewFormat(where, RenamedKey(where, name), kind)
  {
    hide RenamedKey, RoleInDocument, RoleInStep;
    KeysAreFinal(where, name);
    KeysKeepTheirMeaning(where, name, kind);
    var key := RenamedKey(where, name);
    hide Keys;
    match where
    case TopLevel => NewTopKeys(key);
    case StepBlock => NewStepKeys(key);
    case LoadBlock => NewLoadKeys(where, key, kind);
    case AuthBlock => NewLoadKeys(where, key, kind);
    case DataSource => NewLoadKeys(where, key, kind);
    case GenerateField => NewFieldKeys(where, key, kind);
    case BrokerBlock => NewFieldKeys(where, key, kind);
    case BrokerAuth => NewFieldKeys(where, key, kind);
    case CaptureBody => NewAwaitKeys(where, key, kind);
    case KafkaBlock => NewAwaitKeys(where, key, kind);
    case AwaitBlock => NewAwaitKeys(where, key, kind);
    case _ =>
  }

  // ----- Keys that come to be the same -----

  /** The only two keys of one context with the same translation. */
  predicate SharedTranslation(where: Context, a: string, b: string) {
    || (where == StepBlock && a == "verificar" && b == "espera")
    || (where == StepBlock && a == "espera" && b == "verificar")
    || (where == SloLimits && a == "vazao" && b == "taxa_efetiva")
    || (where == SloLimits && a == "taxa_efetiva" && b == "vazao")
  }

  /** Two keys are written the same after the migration: one is the translation of the other, or they
      have the same one. */
  predicate Collide(where: Context, a: string, b: string) {
    || (a in Keys(where) && Keys(where)[a] == b)
    || (b in Keys(where) && Keys(where)[b] == a)
    || SharedTranslation(where, a, b)
  }

  /** Both keys are renamed, to the same key. */
  predicate SameTranslation(where: Context, a: string, b: string) {
    a in Keys(where) && b in Keys(where) && a != b && Keys(where)[a] == Keys(where)[b]
  }

  lemma TranslationsOfDeclarations(where: Context, a: string, b: string)
    requires where == LoadBlock || where == ProfileBody || where == AuthBlock
    ensures SameTranslation(where, a, b) ==> SharedTranslation(where, a, b)
  {
  }

  lemma TranslationsOfData(where: Context, a: string, b: string)
    requires where == DataSource || where == GenerateField
    ensures SameTranslation(where, a, b) ==> SharedTranslation(where, a, b)
  {
  }

  lemma TranslationsOfBrokers(where: Context, a: string, b: string)
    requires where == BrokerBlock || where == BrokerAuth || where == TlsBlock
    ensures SameTranslation(where, a, b) ==> SharedTranslation(where, a, b)
  {
  }

  lemma TranslationsOfSteps(where: Context, a: string, b: string)
    requires where == StepBlock || where == ExpectBlock || where == CaptureBody
    ensures SameTranslation(where, a, b) ==> SharedTranslation(where, a, b)
  {
  }

  lemma TranslationsOfRequests(where: Context, a: string, b: string)
    requires where == HttpBlock || where == GraphqlBlock || where == KafkaBlock
    ensures SameTranslation(where, a, b) ==> SharedTranslation(where, a, b)
  {
  }

  lemma TranslationsOfAwaits(where: Context, a: string, b: string)
    requires where == AwaitBlock || where == AwaitSource || where == AwaitHttp
    ensures SameTranslation(where, a, b) ==> SharedTranslation(where, a, b)
  {
  }

  lemma TranslationsOfTopLevel(where: Context, a: string, b: string)
    requires where == TopLevel
    ensures SameTranslation(where, a, b) ==> SharedTranslation(where, a, b)
  {
  }

  lemma TranslationsOfAmqp(where: Context, a: string, b: string)
    requires where == AmqpBlock
    ensures SameTranslation(where, a, b) ==> SharedTranslation(where, a, b)
  {
  }

  /** Which limit a translation comes from. */
  function LimitSources(): map<string, string> {
    map[
      "errors" := "erros", "success" := "sucesso", "throughput" := "vazao",
      "journeyP50" := "jornada_p50", "journeyP75" := "jornada_p75", "journeyP90" := "jornada_p90",
      "journeyP95" := "jornada_p95", "journeyP99" := "jornada_p99", "journeyMax" := "jornada_max",
      "globalP50" := "global_p50", "globalP75" := "global_p75", "globalP90" := "global_p90",
      "globalP95" := "global_p95", "globalP99" := "global_p99", "globalMax" := "global_max"]
  }

  lemma LimitsHaveSources(a: string)
    requires a in Keys(SloLimits) && a != "taxa_efetiva"
    ensures Keys(SloLimits)[a] in LimitSources() && LimitSources()[Keys(SloLimits)[a]] == a
  {
  }

  lemma OneSourceEach(a: string, b: string)
    requires a in Keys(SloLimits) && a != "taxa_efetiva" && b in Keys(SloLimits) && b != "taxa_efetiva"
    ensures Keys(SloLimits)[a] == Keys(SloLimits)[b] ==> a == b
  {
    hide Keys, LimitSources;
    LimitsHaveSources(a);
    LimitsHaveSources(b);
  }

  lemma OnlyThroughput(a: string)
    requires a in Keys(SloLimits) && a != "taxa_efetiva" && a != "vazao"
    ensures Keys(SloLimits)[a] != Keys(SloLimits)["taxa_efetiva"]
  {
    assert Keys(SloLimits)["taxa_efetiva"] == Keys(SloLimits)["vazao"];
    OneSourceEach(a, "vazao");
    hide Keys;
  }

  lemma TranslationsOfLimits(where: Context, a: string, b: string)
    requires where == SloLimits
    ensures SameTranslation(where, a, b) ==> SharedTranslation(where, a, b)
  {
    hide Keys;
    if SameTranslation(where, a, b) {
      if a == "taxa_efetiva" {
        if b != "vazao" { OnlyThroughput(b); }
      } else if b == "taxa_efetiva" {
        if a != "vazao" { OnlyThroughput(a); }
      } else {
        OneSourceEach(a, b);
      }
    }
  }

  lemma NothingToTranslate(where: Context, a: string, b: string)
    requires where == DataBlock || where == GenerateBlock || where == MessagingBlock || where == CaptureBlock
    ensures !SameTranslation(where, a, b)
  {
  }

  lemma TranslationsDiffer(where: Context, a: string, b: string)
    ensures SameTranslation(where, a, b) ==> SharedTranslation(where, a, b)
  {
    hide SharedTranslation, SameTranslation;
    match where
    case DataBlock => NothingToTranslate(where, a, b);
    case GenerateBlock => NothingToTranslate(where, a, b);
    case MessagingBlock => NothingToTranslate(where, a, b);
    case CaptureBlock => NothingToTranslate(where, a, b);
    case LoadBlock => TranslationsOfDeclarations(where, a, b);
    case ProfileBody => TranslationsOfDeclarations(where, a, b);
    case AuthBlock => TranslationsOfDeclarations(where, a, b);
    case DataSource => TranslationsOfData(where, a, b);
    case GenerateField => TranslationsOfData(where, a, b);
    case BrokerBlock => TranslationsOfBrokers(where, a, b);
    case BrokerAuth => TranslationsOfBrokers(where, a, b);
    case TlsBlock => TranslationsOfBrokers(where, a, b);
    case StepBlock => TranslationsOfSteps(where, a, b);
    case ExpectBlock => TranslationsOfSteps(where, a, b);
    case CaptureBody => TranslationsOfSteps(where, a, b);
    case HttpBlock => TranslationsOfRequests(where, a, b);
    case GraphqlBlock => TranslationsOfRequests(where, a, b);
    case KafkaBlock => TranslationsOfRequests(where, a, b);
    case AwaitBlock => TranslationsOfAwaits(where, a, b);
    case AwaitSource => TranslationsOfAwaits(where, a, b);
    case AwaitHttp => TranslationsOfAwaits(where, a, b);
    case TopLevel => TranslationsOfTopLevel(where, a, b);
    case AmqpBlock => TranslationsOfAmqp(where, a, b);
    case SloLimits => TranslationsOfLimits(where, a, b);
  }

  /** Two different keys are the same key after the migration exactly when they collide. */
  lemma {:induction false} KeysCollide(where: Context, a: string, b: string)
    requires a != b
    ensures RenamedKey(where, a) == RenamedKey(where, b) <==> Collide(where, a, b)
  {
    KeysAreFinal(where, a);
    KeysAreFinal(where, b);
    TranslationsDiffer(where, a, b);
    if SharedTranslation(where, a, b) { SharedIsSame(where, a, b); }
    hide Keys, SharedTranslation;
  }

  lemma BothExpect()
    ensures var keys := Keys(StepBlock);
            "verificar" in keys && "espera" in keys && keys["verificar"] == keys["espera"]
  {
  }

  lemma BothThroughput()
    ensures var keys := Keys(SloLimits);
            "vazao" in keys && "taxa_efetiva" in keys && keys["vazao"] == keys["taxa_efetiva"]
  {
  }

  lemma SharedIsSame(where: Context, a: string, b: string)
    requires SharedTranslation(where, a, b)
    ensures SameTranslation(where, a, b)
  {
    hide Keys;
    BothExpect();
    BothThroughput();
    assert "verificar" != "espera" && "vazao" != "taxa_efetiva";
  }

  /** The positions of the keys of a mapping. */
  predicate IsKey(node: Node, i: int) { 0 <= i && i % 2 == 0 && i + 1 < |node.content| }

  ghost predicate DistinctKeys(node: Node) {
    forall i, j :: IsKey(node, i) && IsKey(node, j) && i < j ==> node.content[i].value != node.content[j].value
  }

  /** A block with keys of its own each has them after the migration, exactly when no two collide. */
  lemma {:induction false} DistinctKeysStayDistinct(node: Node, where: Context, declared: set<string>)
    requires node.kind == Mapping && DistinctKeys(node)
    ensures DistinctKeys(Rewritten(node, Block(where), declared)) <==>
              forall i, j :: IsKey(node, i) && IsKey(node, j) && i < j ==>
                !Collide(where, node.content[i].value, node.content[j].value)
  {
    hide Collide, Keys, RoleOfValue, Values;
    var after := Rewritten(node, Block(where), declared);
    forall i | IsKey(node, i) ensures after.content[i].value == RenamedKey(where, node.content[i].value) {
      assert RoleOfChild(Block(where), node, i) == Key(where);
      assert after.content[i] == Rewritten(node.content[i], Key(where), declared);
    }
    hide Rewritten, RenamedKey;
    forall i, j | IsKey(node, i) && IsKey(node, j) && i < j
      ensures after.content[i].value == after.content[j].value <==>
                Collide(where, node.content[i].value, node.content[j].value)
    {
      KeysCollide(where, node.content[i].value, node.content[j].value);
    }
    assert forall i :: IsKey(node, i) <==> IsKey(after, i);
  }

  /** A step that checks under both old words has one key twice after the migration. */
  lemma {:induction false} MigrationCanRepeatAKey(value: Node, declared: set<string>)
    ensures var step := Node(Mapping, "", [Node(Scalar, "verificar", []), value, Node(Scalar, "espera", []), value]);
            DistinctKeys(step) && !DistinctKeys(Rewritten(step, Block(StepBlock), declared))
  {
    var step := Node(Mapping, "", [Node(Scalar, "verificar", []), value, Node(Scalar, "espera", []), value]);
    assert IsKey(step, 0) && IsKey(step, 2) && forall i :: IsKey(step, i) ==> i == 0 || i == 2;
    DistinctKeysStayDistinct(step, StepBlock, declared);
    assert Collide(StepBlock, step.content[0].value, step.content[2].value);
  }

  // ----- The migration is idempotent -----

  lemma {:induction false} RolesAreKept(role: Role, node: Node, declared: set<string>, i: nat)
    requires i < |node.content|
    ensures RoleOfChild(role, Rewritten(node, role, declared), i) == RoleOfChild(role, node, i)
  {
    hide RoleOfValue, Keys, Values;
    var after := Rewritten(node, role, declared);
    RewrittenKind(node.content[i], RoleOfChild(role, node, i), declared);
    if role.Block? && node.kind == Mapping && i % 2 == 1 {
      var key := node.content[i - 1];
      assert RoleOfChild(role, node, i - 1) == Key(role.where);
      assert after.content[i - 1] == Rewritten(key, Key(role.where), declared);
      assert after.content[i - 1].value == RenamedKey(role.where, key.value);
      KeysKeepTheirMeaning(role.where, key.value, node.content[i].kind);
    }
  }

  /** Walking a migrated tree again visits every node in the same role and collects no edit. */
  lemma {:induction false} NothingLeftToEdit(node: Node, role: Role, declared: set<string>, path: seq<nat>)
    ensures EditBag(Rewritten(node, role, declared), role, declared, path) == multiset{}
    decreases node, |node.content| + 1
  {
    hide Renamed, RoleOfChild, ChildBags;
    var after := Rewritten(node, role, declared);
    RenamingIsFinal(role, node, after, declared);
    NothingLeftBelow(node, role, declared, path, |node.content|);
  }

  lemma {:induction false} NothingLeftBelow(node: Node, role: Role, declared: set<string>, path: seq<nat>, k: nat)
    requires k <= |node.content|
    ensures ChildBags(Rewritten(node, role, declared), role, declared, path, k) == multiset{}
    decreases node, k
  {
    hide Renamed, RoleOfChild, EditBag;
    if k > 0 {
      NothingLeftBelow(node, role, declared, path, k - 1);
      RolesAreKept(role, node, declared, k - 1);
      NothingLeftToEdit(node.content[k - 1], RoleOfChild(role, node, k - 1), declared, path + [k - 1]);
    }
  }

  // ----- The declared step names -----

  predicate IsScenarioKey(name: string) { name == "cenario" || name == "scenario" }
  predicate IsNameKey(name: string) { name == "nome" || name == "name" }

  ghost function NamesInStep(step: Node): set<string> {
    if step.kind != Mapping then {} else
    set i | 0 <= i < |step.content| && i % 2 == 0 && i + 1 < |step.content| && IsNameKey(step.content[i].value)
      :: Trim(step.content[i + 1].value)
  }

  ghost function NamesInScenario(list: Node): set<string> {
    set i, name | 0 <= i < |list.content| && name in NamesInStep(list.content[i]) :: name
  }

  ghost function NamesInPair(document: Node, i: nat): set<string>
    requires i < |document.content|
  {
    if i % 2 == 0 && i + 1 < |document.content| && IsScenarioKey(document.content[i].value)
    then NamesInScenario(document.content[i + 1]) else {}
  }

  /** The names the author declared on the steps. */
  ghost function DeclaredNames(document: Node): set<string> {
    set i, name | 0 <= i < |document.content| && name in NamesInPair(document, i) :: name
  }

  lemma {:induction false} UntouchedIsUnchanged(node: Node, declared: set<string>)
    ensures Rewritten(node, Untouched, declared) == node
  {
    forall i | 0 <= i < |node.content| ensures Rewritten(node.content[i], Untouched, declared) == node.content[i] {
      UntouchedIsUnchanged(node.content[i], declared);
    }
    var after := Rewritten(node, Untouched, declared);
    assert after.content == node.content;
  }

  lemma StepKeyIsName(name: string)
    ensures IsNameKey(RenamedKey(StepBlock, name)) <==> IsNameKey(name)
    ensures IsNameKey(name) ==> RoleInStep(name) == Untouched
  {
  }

  lemma TopKeyIsScenario(name: string)
    ensures IsScenarioKey(RenamedKey(TopLevel, name)) <==> IsScenarioKey(name)
    ensures IsScenarioKey(name) ==> RoleInDocument(name) == Steps
  {
  }

  /** The name of a step is the author's text: the migration leaves it as it is. */
  lemma {:induction false} StepNamesAreUntouched(step: Node, declared: set<string>, i: nat)
    requires step.kind == Mapping && i % 2 == 0 && i + 1 < |step.content|
    ensures var after := Rewritten(step, Block(StepBlock), declared);
            && (IsNameKey(after.content[i].value) <==> IsNameKey(step.content[i].value))
            && (IsNameKey(step.content[i].value) ==> after.content[i + 1] == step.content[i + 1])
  {
    hide RenamedKey, RoleInStep;
    var key := step.content[i];
    StepKeyIsName(key.value);
    assert RoleOfChild(Block(StepBlock), step, i) == Key(StepBlock);
    assert RoleOfChild(Block(StepBlock), step, i + 1) == RoleInStep(key.value);
    if IsNameKey(key.value) { UntouchedIsUnchanged(step.content[i + 1], declared); }
  }

  lemma NamesInStepAreKept(step: Node, declared: set<string>)
    ensures NamesInStep(Rewritten(step, Block(StepBlock), declared)) == NamesInStep(step)
  {
    hide Trim, Renamed, RoleOfChild, IsNameKey;
    if step.kind == Mapping {
      forall i | 0 <= i < |step.content| && i % 2 == 0 && i + 1 < |step.content|
        ensures var after := Rewritten(step, Block(StepBlock), declared);
                && (IsNameKey(after.content[i].value) <==> IsNameKey(step.content[i].value))
                && (IsNameKey(step.content[i].value) ==> after.content[i + 1] == step.content[i + 1])
      {
        StepNamesAreUntouched(step, declared, i);
      }
    }
  }

  lemma NamesInScenarioAreKept(list: Node, declared: set<string>)
    ensures NamesInScenario(Rewritten(list, Steps, declared)) == NamesInScenario(list)
  {
    hide NamesInStep, Renamed;
    var after := Rewritten(list, Steps, declared);
    forall i | 0 <= i < |list.content| ensures NamesInStep(after.content[i]) == NamesInStep(list.content[i]) {
      if list.kind == Sequence {
        NamesInStepAreKept(list.content[i], declared);
      } else {
        UntouchedIsUnchanged(list.content[i], declared);
      }
    }
  }

  lemma ScenarioPairsAreKept(document: Node, declared: set<string>, i: nat)
    requires document.kind == Mapping && i % 2 == 0 && i + 1 < |document.content|
    ensures var after := Rewritten(document, Block(TopLevel), declared);
            && (IsScenarioKey(after.content[i].value) <==> IsScenarioKey(document.content[i].value))
            && (IsScenarioKey(document.content[i].value) ==>
                  NamesInScenario(after.content[i + 1]) == NamesInScenario(document.content[i + 1]))
  {
    hide RenamedKey, RoleInDocument, NamesInScenario;
    var key := document.content[i];
    TopKeyIsScenario(key.value);
    assert RoleOfChild(Block(TopLevel), document, i) == Key(TopLevel);
    assert RoleOfChild(Block(TopLevel), document, i + 1) == RoleInDocument(key.value);
    if IsScenarioKey(key.value) { NamesInScenarioAreKept(document.content[i + 1], declared); }
  }

  lemma {:induction false} DeclaredNamesAreKept(document: Node, declared: set<string>)
    requires document.kind == Mapping
    ensures DeclaredNames(Rewritten(document, Block(TopLevel), declared)) == DeclaredNames(document)
  {
    hide NamesInScenario, Renamed, RoleOfChild, IsScenarioKey;
    var after := Rewritten(document, Block(TopLevel), declared);
    forall i | 0 <= i < |document.content| ensures NamesInPair(after, i) == NamesInPair(document, i) {
      if i % 2 == 0 && i + 1 < |document.content| { ScenarioPairsAreKept(document, declared, i); }
    }
  }

  /** The document after the migration. */
  ghost function Migrated(document: Node): Node {
    if document.kind != Mapping then document else Rewritten(document, Block(TopLevel), DeclaredNames(document))
  }

  ghost function MigrationEdits(document: Node): multiset<Edit> {
    if document.kind != Mapping then multiset{} else EditBag(document, Block(TopLevel), DeclaredNames(document), [])
  }

  /** Migrating is idempotent on every tree: the second pass sees the same declared names, finds
      nothing to edit and changes nothing. */
  lemma {:induction false} MigrationIsIdempotent(document: Node)
    ensures MigrationEdits(Migrated(document)) == multiset{}
    ensures Migrated(Migrated(document)) == Migrated(document)
  {
    hide Rewritten, EditBag, DeclaredNames;
    if document.kind == Mapping {
      var declared := DeclaredNames(document);
      DeclaredNamesAreKept(document, declared);
      NothingLeftToEdit(document, Block(TopLevel), declared, []);
      RewrittenKind(document, Block(TopLevel), declared);
      NoEditsNoChange(Migrated(document), Block(TopLevel), declared, []);
    }
  }

  lemma RewrittenKind(node: Node, role: Role, declared: set<string>)
    ensures Rewritten(node, role, declared).kind == node.kind
  {
  }

  lemma {:induction false} NoEditsNoChange(node: Node, role: Role, declared: set<string>, path: seq<nat>)
    requires EditBag(node, role, declared, path) == multiset{}
    ensures Rewritten(node, role, declared) == node
    decreases node, |node.content| + 1
  {
    hide Renamed, RoleOfChild;
    assert |OwnEdit(node, role, declared, path)| == 0 && |ChildBags(node, role, declared, path, |node.content|)| == 0;
    forall i | 0 <= i < |node.content|
      ensures Rewritten(node.content[i], RoleOfChild(role, node, i), declared) == node.content[i]
    {
      ChildWithoutEdits(node, role, declared, path, |node.content|, i);
      NoEditsNoChange(node.content[i], RoleOfChild(role, node, i), declared, path + [i]);
    }
    assert Rewritten(node, role, declared).content == node.content;
  }

  lemma {:induction false} ChildWithoutEdits(node: Node, role: Role, declared: set<string>, path: seq<nat>,
                                             k: nat, i: nat)
    requires i < k <= |node.content| && ChildBags(node, role, declared, path, k) == multiset{}
    ensures EditBag(node.content[i], RoleOfChild(role, node, i), declared, path + [i]) == multiset{}
  {
    hide EditBag, RoleOfChild;
    var before := ChildBags(node, role, declared, path, k - 1);
    var last := EditBag(node.content[k - 1], RoleOfChild(role, node, k - 1), declared, path + [k - 1]);
    assert |before + last| == |before| + |last|;
    if i < k - 1 { ChildWithoutEdits(node, role, declared, path, k - 1, i); }
  }

  // ----- The edits are exactly the differences -----

  predicate ValidPath(node: Node, p: seq<nat>) {
    p == [] || (p[0] < |node.content| && ValidPath(node.content[p[0]], p[1..]))
  }

  function ValueAt(node: Node, p: seq<nat>): string
    requires ValidPath(node, p)
  {
    if p == [] then node.value else ValueAt(node.content[p[0]], p[1..])
  }

  lemma {:induction false} EditsLieBelow(node: Node, role: Role, declared: set<string>, path: seq<nat>, e: Edit)
    requires e in EditBag(node, role, declared, path)
    ensures path <= e.path
    decreases node, |node.content| + 1
  {
    hide Renamed, RoleOfChild, ChildBags;
    if e !in OwnEdit(node, role, declared, path) {
      ChildEditsLieBelow(node, role, declared, path, |node.content|, e);
    }
  }

  lemma {:induction false} ChildEditsLieBelow(node: Node, role: Role, declared: set<string>, path: seq<nat>,
                                              k: nat, e: Edit)
    requires k <= |node.content| && e in ChildBags(node, role, declared, path, k)
    ensures path <= e.path && |path| < |e.path| && e.path[|path|] < k
    decreases node, k
  {
    hide RoleOfChild, EditBag;
    if e in ChildBags(node, role, declared, path, k - 1) {
      ChildEditsLieBelow(node, role, declared, path, k - 1, e);
    } else {
      EditsLieBelow(node.content[k - 1], RoleOfChild(role, node, k - 1), declared, path + [k - 1], e);
    }
  }

  /** An edit below child i is counted by child i alone. */
  lemma {:induction false} OneChildCounts(node: Node, role: Role, declared: set<string>, path: seq<nat>,
                                          k: nat, i: nat, e: Edit)
    requires i < |node.content| && k <= |node.content| && path + [i] <= e.path
    ensures ChildBags(node, role, declared, path, k)[e]
         == if i < k then EditBag(node.content[i], RoleOfChild(role, node, i), declared, path + [i])[e] else 0
  {
    hide RoleOfChild, EditBag;
    if k > 0 {
      OneChildCounts(node, role, declared, path, k - 1, i, e);
      var last := EditBag(node.content[k - 1], RoleOfChild(role, node, k - 1), declared, path + [k - 1]);
      assert e.path[|path|] == i;
      if k - 1 != i && e in last {
        EditsLieBelow(node.content[k - 1], RoleOfChild(role, node, k - 1), declared, path + [k - 1], e);
      }
    }
  }

  /** The walk collects one edit for every node whose value differs after the migration, from the
      old value to the new one, and none for any other: no node ever gets two edits. */
  lemma {:induction false} EditsAreTheDifferences(node: Node, role: Role, declared: set<string>, path: seq<nat>,
                                                  p: seq<nat>, e: Edit)
    requires ValidPath(node, p) && e.path == path + p
    ensures ValidPath(Rewritten(node, role, declared), p)
    ensures var was, now := ValueAt(node, p), ValueAt(Rewritten(node, role, declared), p);
            EditBag(node, role, declared, path)[e] == if was != now && e.from == was && e.to == now then 1 else 0
    decreases node
  {
    hide Renamed, RoleOfChild;
    var n := |node.content|;
    if p == [] {
      assert e.path == path;
      if e in ChildBags(node, role, declared, path, n) {
        ChildEditsLieBelow(node, role, declared, path, n, e);
      }
    } else {
      var i := p[0];
      assert path + [i] + p[1..] == path + p;
      OneChildCounts(node, role, declared, path, n, i, e);
      EditsAreTheDifferences(node.content[i], RoleOfChild(role, node, i), declared, path + [i], p[1..], e);
      assert e.path != path;
    }
  }
}
