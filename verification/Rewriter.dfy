/** The walk of the migration as the source performs it (internal/scenario/migration.go): methods
    that visit the parsed document recursively and append to one list of edits.

    The order in which edits are appended differs from the order of the tree in two places, so the
    list is compared with the tree's edits as a multiset; it is sorted by position afterwards.  */
module Rewriting {
  import opened Migration

  // ----- Facts about the edits of a subtree -----

  lemma {:induction false} UntouchedHasNoEdits(node: Node, declared: set<string>, path: seq<nat>)
    ensures EditBag(node, Untouched, declared, path) == multiset{}
    decreases node, |node.content| + 1
  {
    UntouchedChildren(node, Untouched, declared, path, |node.content|);
  }

  lemma {:induction false} UntouchedChildren(node: Node, role: Role, declared: set<string>, path: seq<nat>, k: nat)
    requires k <= |node.content| && forall i :: 0 <= i < |node.content| ==> RoleOfChild(role, node, i) == Untouched
    ensures ChildBags(node, role, declared, path, k) == multiset{}
    decreases node, k
  {
    hide RoleOfChild;
    if k > 0 {
      UntouchedChildren(node, role, declared, path, k - 1);
      UntouchedHasNoEdits(node.content[k - 1], declared, path + [k - 1]);
    }
  }

  predicate IsLeaf(role: Role) {
    role.Key? || role.Value? || role.RuleTarget? || role.Limit? || role.ComparedKey? || role.Capture? || role.Generator?
  }

  /** A node in a leaf role has no edit but its own. */
  lemma LeafEdits(node: Node, role: Role, declared: set<string>, path: seq<nat>)
    requires IsLeaf(role)
    ensures EditBag(node, role, declared, path) == OwnEdit(node, role, declared, path)
  {
    hide OwnEdit, ChildBags;
    UntouchedChildren(node, role, declared, path, |node.content|);
  }

  /** A node in any other role has no edit of its own. */
  lemma BlockEdits(node: Node, role: Role, declared: set<string>, path: seq<nat>)
    requires !IsLeaf(role)
    ensures EditBag(node, role, declared, path) == ChildBags(node, role, declared, path, |node.content|)
  {
    hide ChildBags;
  }

  /** A block, list or rule of the wrong kind is not walked. */
  lemma WrongKind(node: Node, role: Role, declared: set<string>, path: seq<nat>)
    requires !IsLeaf(role)
    requires (node.kind != Mapping && node.kind != Sequence)
          || (node.kind == Mapping && (role.Profiles? || role.Steps? || role.Rules? || role.Values_?))
          || (node.kind == Sequence && (role.Block? || role.Profile? || role.Rule? || role.Limits? || role.Compared?))
          || (|node.content| < 2 && (role.Profile? || role.Rule?))
          || role.Untouched?
    ensures EditBag(node, role, declared, path) == multiset{}
  {
    hide ChildBags;
    UntouchedChildren(node, role, declared, path, |node.content|);
    BlockEdits(node, role, declared, path);
  }

  /** One child more. */
  lemma NextChild(node: Node, role: Role, declared: set<string>, path: seq<nat>, k: nat)
    requires k < |node.content|
    ensures ChildBags(node, role, declared, path, k + 1)
         == ChildBags(node, role, declared, path, k)
          + EditBag(node.content[k], RoleOfChild(role, node, k), declared, path + [k])
  {
  }

  /** The edits of the values below a mapping, every second child, in one role. */
  ghost function ValueBags(node: Node, role: Role, declared: set<string>, path: seq<nat>, k: nat): multiset<Edit>
    requires k <= |node.content|
  {
    if k == 0 then multiset{} else
    var before := ValueBags(node, role, declared, path, k - 1);
    if (k - 1) % 2 == 1 then before + EditBag(node.content[k - 1], role, declared, path + [k - 1]) else before
  }

  /** The edits of the keys below a mapping. */
  ghost function KeyBags(node: Node, role: Role, declared: set<string>, path: seq<nat>, k: nat): multiset<Edit>
    requires k <= |node.content|
  {
    if k == 0 then multiset{} else
    var before := KeyBags(node, role, declared, path, k - 1);
    if (k - 1) % 2 == 0 && k < |node.content|
    then before + EditBag(node.content[k - 1], role, declared, path + [k - 1]) else before
  }

  function Capped(k: nat, n: nat): nat { if k <= n then k else n }

  lemma NextValue(node: Node, role: Role, declared: set<string>, path: seq<nat>, index: nat)
    requires index % 2 == 1 && index < |node.content|
    ensures ValueBags(node, role, declared, path, Capped(index + 2, |node.content|))
         == ValueBags(node, role, declared, path, index) + EditBag(node.content[index], role, declared, path + [index])
  {
    hide EditBag;
    assert ValueBags(node, role, declared, path, index + 1)
        == ValueBags(node, role, declared, path, index) + EditBag(node.content[index], role, declared, path + [index]);
  }

  lemma NoValueYet(node: Node, role: Role, declared: set<string>, path: seq<nat>)
    ensures ValueBags(node, role, declared, path, Capped(1, |node.content|)) == multiset{}
  {
    hide EditBag;
  }

  lemma NextKey(node: Node, role: Role, declared: set<string>, path: seq<nat>, index: nat)
    requires index % 2 == 0 && index + 1 < |node.content|
    ensures KeyBags(node, role, declared, path, index + 2)
         == KeyBags(node, role, declared, path, index) + EditBag(node.content[index], role, declared, path + [index])
  {
    hide EditBag;
    assert KeyBags(node, role, declared, path, index + 1)
        == KeyBags(node, role, declared, path, index) + EditBag(node.content[index], role, declared, path + [index]);
  }

  lemma KeyBagsEnds(node: Node, role: Role, declared: set<string>, path: seq<nat>, index: nat)
    requires index % 2 == 0 && index <= |node.content| <= index + 1
    ensures KeyBags(node, role, declared, path, |node.content|) == KeyBags(node, role, declared, path, index)
  {
    hide EditBag;
  }

  lemma NoKeyYet(node: Node, role: Role, declared: set<string>, path: seq<nat>)
    ensures KeyBags(node, role, declared, path, 0) == multiset{}
  {
  }

  lemma NoChildYet(node: Node, role: Role, declared: set<string>, path: seq<nat>)
    ensures ChildBags(node, role, declared, path, 0) == multiset{}
  {
  }

  lemma ComparedRole(node: Node, i: nat)
    requires node.kind == Mapping && i < |node.content|
    ensures RoleOfChild(Compared, node, i)
         == if i % 2 == 1 then Value(Comparisons) else if i + 1 < |node.content| then ComparedKey else Untouched
  {
  }

  lemma LimitsRole(node: Node, first: bool, i: nat)
    requires node.kind == Mapping && i < |node.content|
    ensures RoleOfChild(Limits(first), node, i)
         == if i % 2 == 1 then Limit else if first && i + 1 < |node.content| then Key(SloLimits) else Untouched
    ensures RoleOfChild(Block(SloLimits), node, i)
         == if i % 2 == 0 && i + 1 < |node.content| then Key(SloLimits) else Untouched
  {
  }

  /** Comparisons: values and keys can be collected one after the other. */
  lemma {:induction false} ComparedSplit(node: Node, declared: set<string>, path: seq<nat>, k: nat)
    requires node.kind == Mapping && k <= |node.content|
    ensures ChildBags(node, Compared, declared, path, k)
         == ValueBags(node, Value(Comparisons), declared, path, k) + KeyBags(node, ComparedKey, declared, path, k)
  {
    hide EditBag, ChildBags, RoleOfChild;
    if k > 0 {
      ComparedSplit(node, declared, path, k - 1);
      NextChild(node, Compared, declared, path, k - 1);
      ComparedRole(node, k - 1);
      UntouchedHasNoEdits(node.content[k - 1], declared, path + [k - 1]);
    } else {
      NoChildYet(node, Compared, declared, path);
    }
  }

  /** Limits: the renamed keys, if any, and the values. */
  lemma {:induction false} LimitsSplit(node: Node, first: bool, declared: set<string>, path: seq<nat>, k: nat)
    requires node.kind == Mapping && k <= |node.content|
    ensures ChildBags(node, Limits(first), declared, path, k)
         == (if first then ChildBags(node, Block(SloLimits), declared, path, k) else multiset{})
          + ValueBags(node, Limit, declared, path, k)
  {
    hide EditBag, ChildBags, RoleOfChild;
    if k > 0 {
      LimitsSplit(node, first, declared, path, k - 1);
      NextChild(node, Limits(first), declared, path, k - 1);
      NextChild(node, Block(SloLimits), declared, path, k - 1);
      LimitsRole(node, first, k - 1);
      UntouchedHasNoEdits(node.content[k - 1], declared, path + [k - 1]);
    } else {
      NoChildYet(node, Limits(first), declared, path);
      NoChildYet(node, Block(SloLimits), declared, path);
    }
  }

  /** The values of the limits of one rule, over all its mappings. */
  ghost function LimitValues(node: Node, declared: set<string>, path: seq<nat>, k: nat): multiset<Edit>
    requires k <= |node.content|
  {
    if k == 0 then multiset{} else
    var before, limits := LimitValues(node, declared, path, k - 1), node.content[k - 1];
    if (k - 1) % 2 == 1 && limits.kind == Mapping
    then before + ValueBags(limits, Limit, declared, path + [k - 1], |limits.content|) else before
  }

  lemma NoLimitYet(node: Node, declared: set<string>, path: seq<nat>)
    ensures LimitValues(node, declared, path, Capped(1, |node.content|)) == multiset{}
  {
  }

  lemma NextLimits(node: Node, declared: set<string>, path: seq<nat>, index: nat)
    requires index % 2 == 1 && index < |node.content|
    ensures var limits := node.content[index];
            LimitValues(node, declared, path, Capped(index + 2, |node.content|))
            == LimitValues(node, declared, path, index)
               + if limits.kind == Mapping then ValueBags(limits, Limit, declared, path + [index], |limits.content|)
                 else multiset{}
  {
    hide ValueBags;
    assert LimitValues(node, declared, path, index + 1)
        == LimitValues(node, declared, path, Capped(index + 2, |node.content|));
  }

  /** What the items of a walked list are. */
  function RoleOfItem(list: Role): Role
    requires list.Profiles? || list.Steps? || list.Rules?
  {
    match list
    case Profiles => Profile
    case Steps => Block(StepBlock)
    case Rules => Rule
  }

  lemma ListRole(node: Node, role: Role, i: nat)
    requires node.kind == Sequence && i < |node.content| && (role.Profiles? || role.Steps? || role.Rules?)
    ensures RoleOfChild(role, node, i) == RoleOfItem(role)
  {
  }

  lemma RuleRole(node: Node, i: nat)
    requires node.kind == Mapping && 2 <= |node.content| && i < |node.content|
    ensures RoleOfChild(Rule, node, i)
         == if i == 0 then RuleTarget else if i % 2 == 1 then Limits(i == 1) else Untouched
  {
  }

  lemma LimitsBag(limits: Node, first: bool, declared: set<string>, path: seq<nat>)
    ensures EditBag(limits, Limits(first), declared, path)
         == (if first then EditBag(limits, Block(SloLimits), declared, path) else multiset{})
          + (if limits.kind == Mapping then ValueBags(limits, Limit, declared, path, |limits.content|) else multiset{})
  {
    hide EditBag, ChildBags, RoleOfChild, ValueBags;
    if limits.kind == Mapping {
      BlockEdits(limits, Limits(first), declared, path);
      BlockEdits(limits, Block(SloLimits), declared, path);
      LimitsSplit(limits, first, declared, path, |limits.content|);
    } else {
      WrongKind(limits, Limits(first), declared, path);
      WrongKind(limits, Block(SloLimits), declared, path);
    }
  }

  /** A rule: its target, the keys of its first mapping, and then the values of all of them. */
  lemma {:induction false} RuleSplit(node: Node, declared: set<string>, path: seq<nat>, k: nat)
    requires node.kind == Mapping && 2 <= k <= |node.content|
    ensures ChildBags(node, Rule, declared, path, k)
         == EditBag(node.content[0], RuleTarget, declared, path + [0])
          + EditBag(node.content[1], Block(SloLimits), declared, path + [1])
          + LimitValues(node, declared, path, k)
  {
    hide EditBag, ChildBags, RoleOfChild, ValueBags;
    NextChild(node, Rule, declared, path, k - 1);
    RuleRole(node, k - 1);
    LimitsBag(node.content[k - 1], k == 2, declared, path + [k - 1]);
    if k == 2 {
      NoChildYet(node, Rule, declared, path);
      NextChild(node, Rule, declared, path, 0);
      RuleRole(node, 0);
      assert LimitValues(node, declared, path, 1) == multiset{};
    } else {
      RuleSplit(node, declared, path, k - 1);
      UntouchedHasNoEdits(node.content[k - 1], declared, path + [k - 1]);
    }
  }

  // ----- The walk -----

  class Rewriter {
    const declaredSteps: set<string>
    var edits: seq<Edit>

    ghost function Bag(): multiset<Edit>
      reads this
    {
      multiset(edits)
    }

    constructor (declared: set<string>)
      ensures declaredSteps == declared && edits == []
    {
      declaredSteps, edits := declared, [];
    }

    method Rename(node: Node, to: string, path: seq<nat>)
      modifies this`edits
      ensures Bag() == old(Bag())
                     + if to == node.value || to == "" then multiset{} else multiset{Edit(path, node.value, to)}
    {
      if node.value == to || to == "" {
        return;
      }
      edits := edits + [Edit(path, node.value, to)];
    }

    method RenameValue(node: Node, table: Table, path: seq<nat>)
      modifies this`edits
      ensures Bag() == old(Bag()) + OwnEdit(node, Value(table), declaredSteps, path)
    {
      hide Trim, Values;
      if node.kind != Scalar {
        return;
      }
      if Trim(node.value) in Values(table) {
        ValuesAreTight(table, Trim(node.value));
        Rename(node, Values(table)[Trim(node.value)], path);
      }
    }

    method RenameDerivedStep(node: Node, path: seq<nat>)
      modifies this`edits
      ensures Bag() == old(Bag()) + DerivedEdit(node, declaredSteps, path)
    {
      hide Trim;
      if node.kind != Scalar {
        return;
      }
      var name := Trim(node.value);
      if name in declaredSteps {
        return;
      }
      if HasPrefix(name, "kafka produzir ") {
        Rename(node, "kafka produce " + name[15..], path);
      } else if HasPrefix(name, "amqp publicar ") {
        Rename(node, "amqp publish " + name[14..], path);
      } else if HasPrefix(name, "aguardar ") {
        Rename(node, "await " + name[9..], path);
      }
    }

    method CaptureExpression(node: Node, path: seq<nat>)
      modifies this`edits
      ensures Bag() == old(Bag()) + EditBag(node, Capture, declaredSteps, path)
    {
      hide EditBag;
      LeafEdits(node, Capture, declaredSteps, path);
      if node.kind != Scalar {
        return;
      }
      if node.value == "corpo" {
        Rename(node, "body", path);
      } else if HasPrefix(node.value, "cabecalho:") {
        Rename(node, "header:" + node.value[10..], path);
      }
    }

    method GeneratorShorthand(node: Node, path: seq<nat>)
      modifies this`edits
      ensures Bag() == old(Bag()) + EditBag(node, Generator, declaredSteps, path)
    {
      hide EditBag, Trim, Values;
      LeafEdits(node, Generator, declaredSteps, path);
      if node.kind != Scalar {
        return;
      }
      var recipe := UpTo(node.value, '(');
      if Trim(recipe) !in Values(GeneratorKinds) {
        return;
      }
      ValuesAreTight(GeneratorKinds, Trim(recipe));
      Rename(node, Values(GeneratorKinds)[Trim(recipe)] + node.value[|recipe|..], path);
    }

    method List(node: Node, table: Table, path: seq<nat>)
      modifies this`edits
      ensures Bag() == old(Bag()) + EditBag(node, Values_(table), declaredSteps, path)
    {
      hide EditBag, ChildBags;
      ghost var role := Values_(table);
      if node.kind != Sequence {
        WrongKind(node, role, declaredSteps, path);
        return;
      }
      BlockEdits(node, role, declaredSteps, path);
      NoChildYet(node, role, declaredSteps, path);
      for i := 0 to |node.content|
        invariant Bag() == old(Bag()) + ChildBags(node, role, declaredSteps, path, i)
      {
        NextChild(node, role, declaredSteps, path, i);
        ValueNode(node.content[i], table, path + [i]);
      }
    }

    method ComparedValues(node: Node, path: seq<nat>)
      requires node.kind == Mapping
      modifies this`edits
      ensures Bag() == old(Bag()) + ValueBags(node, Value(Comparisons), declaredSteps, path, |node.content|)
    {
      hide EditBag, ValueBags;
      NoValueYet(node, Value(Comparisons), declaredSteps, path);
      var index := 1;
      while index < |node.content|
        invariant index % 2 == 1
        invariant Bag() == old(Bag())
            + ValueBags(node, Value(Comparisons), declaredSteps, path, Capped(index, |node.content|))
      {
        NextValue(node, Value(Comparisons), declaredSteps, path, index);
        ValueNode(node.content[index], Comparisons, path + [index]);
        index := index + 2;
      }
    }

    method ComparedKeys(node: Node, path: seq<nat>)
      requires node.kind == Mapping
      modifies this`edits
      ensures Bag() == old(Bag()) + KeyBags(node, ComparedKey, declaredSteps, path, |node.content|)
    {
      hide EditBag, KeyBags;
      NoKeyYet(node, ComparedKey, declaredSteps, path);
      var index := 0;
      while index + 1 < |node.content|
        invariant index % 2 == 0 && index <= |node.content|
        invariant Bag() == old(Bag()) + KeyBags(node, ComparedKey, declaredSteps, path, index)
      {
        NextKey(node, ComparedKey, declaredSteps, path, index);
        ComparedKeyNode(node.content[index], path + [index]);
        index := index + 2;
      }
      KeyBagsEnds(node, ComparedKey, declaredSteps, path, index);
    }

    method ComparedKeyNode(key: Node, path: seq<nat>)
      modifies this`edits
      ensures Bag() == old(Bag()) + EditBag(key, ComparedKey, declaredSteps, path)
    {
      hide EditBag;
      LeafEdits(key, ComparedKey, declaredSteps, path);
      if key.value == "corpo_contem" {
        Rename(key, "bodyContains", path);
      }
    }

    method Comparisons_(node: Node, path: seq<nat>)
      modifies this`edits
      ensures Bag() == old(Bag()) + EditBag(node, Compared, declaredSteps, path)
    {
      hide EditBag, ChildBags, ValueBags, KeyBags;
      if node.kind != Mapping {
        WrongKind(node, Compared, declaredSteps, path);
        return;
      }
      BlockEdits(node, Compared, declaredSteps, path);
      ComparedSplit(node, declaredSteps, path, |node.content|);
      ComparedValues(node, path);
      ComparedKeys(node, path);
    }

    method Mapping_(node: Node, where: Context, path: seq<nat>)
      modifies this`edits
      ensures Bag() == old(Bag()) + EditBag(node, Block(where), declaredSteps, path)
      decreases node, 1, 0
    {
      hide EditBag, ChildBags, RoleOfChild;
      ghost var role := Block(where);
      if node.kind != Mapping {
        WrongKind(node, role, declaredSteps, path);
        return;
      }
      BlockEdits(node, role, declaredSteps, path);
      NoChildYet(node, role, declaredSteps, path);
      var index := 0;
      while index + 1 < |node.content|
        invariant index % 2 == 0 && index <= |node.content|
        invariant Bag() == old(Bag()) + ChildBags(node, role, declaredSteps, path, index)
      {
        NextPair(node, where, declaredSteps, path, index);
        Pair(node.content[index], node.content[index + 1], where, path + [index], path + [index + 1]);
        index := index + 2;
      }
      if index < |node.content| {
        NextChild(node, role, declaredSteps, path, index);
        LoneKey(node, where, index);
        UntouchedHasNoEdits(node.content[index], declaredSteps, path + [index]);
      }
    }

    method Pair(key: Node, value: Node, where: Context, keyPath: seq<nat>, valuePath: seq<nat>)
      modifies this`edits
      ensures Bag() == old(Bag()) + EditBag(key, Key(where), declaredSteps, keyPath)
                                  + EditBag(value, RoleOfValue(where, key.value, value.kind), declaredSteps, valuePath)
      decreases value, 3
    {
      hide EditBag, Keys, RoleOfValue;
      LeafEdits(key, Key(where), declaredSteps, keyPath);
      if key.value in Keys(where) {
        KeysAreWords(where, key.value);
        Rename(key, Keys(where)[key.value], keyPath);
      }
      Descend(key.value, value, where, valuePath);
    }

    method Descend(name: string, value: Node, where: Context, path: seq<nat>)
      modifies this`edits
      ensures Bag() == old(Bag()) + EditBag(value, RoleOfValue(where, name, value.kind), declaredSteps, path)
      decreases value, 2
    {
      hide EditBag;
      match where
      case TopLevel => DescendDocument(name, value, path);
      case StepBlock => DescendStep(name, value, path);
      case LoadBlock =>
        if name == "modelo" || name == "model" {
          ValueNode(value, LoadModels, path);
        } else if name == "perfis" || name == "profiles" {
          Sequence_(value, Profiles, path);
        } else {
          WrongKind(value, Untouched, declaredSteps, path);
        }
      case AuthBlock =>
        if name == "tipo" || name == "type" {
          ValueNode(value, AuthKinds, path);
        } else if name == "obter" || name == "obtain" {
          Mapping_(value, StepBlock, path);
        } else {
          WrongKind(value, Untouched, declaredSteps, path);
        }
      case DataBlock => Mapping_(value, DataSource, path);
      case DataSource =>
        if name == "consumo" || name == "consume" {
          ValueNode(value, ConsumeKinds, path);
        } else if name == "gerar" || name == "generate" {
          Mapping_(value, GenerateBlock, path);
        } else {
          WrongKind(value, Untouched, declaredSteps, path);
        }
      case GenerateBlock =>
        if value.kind == Mapping {
          Mapping_(value, GenerateField, path);
        } else {
          GeneratorShorthand(value, path);
        }
      case GenerateField =>
        if name == "tipo" || name == "type" {
          ValueNode(value, GeneratorKinds, path);
        } else if name == "novo_a_cada" || name == "newEvery" {
          ValueNode(value, NewEveryKinds, path);
        } else {
          WrongKind(value, Untouched, declaredSteps, path);
        }
      case MessagingBlock => Mapping_(value, BrokerBlock, path);
      case BrokerBlock =>
        if name == "autenticacao" || name == "auth" {
          Mapping_(value, BrokerAuth, path);
        } else if name == "tls" {
          Mapping_(value, TlsBlock, path);
        } else {
          WrongKind(value, Untouched, declaredSteps, path);
        }
      case BrokerAuth =>
        if name == "tipo" || name == "type" {
          ValueNode(value, BrokerKinds, path);
        } else {
          WrongKind(value, Untouched, declaredSteps, path);
        }
      case ExpectBlock =>
        if name == "json" {
          Comparisons_(value, path);
        } else {
          WrongKind(value, Untouched, declaredSteps, path);
        }
      case CaptureBlock =>
        if value.kind == Mapping {
          Mapping_(value, CaptureBody, path);
        } else {
          CaptureExpression(value, path);
        }
      case CaptureBody =>
        if name == "de" || name == "from" {
          CaptureExpression(value, path);
        } else {
          WrongKind(value, Untouched, declaredSteps, path);
        }
      case KafkaBlock =>
        if name == "acks" {
          ValueNode(value, AcksKinds, path);
        } else {
          WrongKind(value, Untouched, declaredSteps, path);
        }
      case AwaitBlock =>
        if name == "kafka" || name == "amqp" {
          Mapping_(value, AwaitSource, path);
        } else if name == "http" {
          Mapping_(value, AwaitHttp, path);
        } else if name == "ate" || name == "until" {
          Comparisons_(value, path);
        } else {
          WrongKind(value, Untouched, declaredSteps, path);
        }
      case _ => WrongKind(value, Untouched, declaredSteps, path);
    }

    method DescendDocument(name: string, value: Node, path: seq<nat>)
      modifies this`edits
      ensures Bag() == old(Bag()) + EditBag(value, RoleInDocument(name), declaredSteps, path)
      decreases value, 1, 1
    {
      hide EditBag;
      if name == "carga" || name == "load" {
        Mapping_(value, LoadBlock, path);
      } else if name == "cenario" || name == "scenario" {
        Sequence_(value, Steps, path);
      } else if name == "autenticacao" || name == "auth" {
        Mapping_(value, AuthBlock, path);
      } else if name == "dados" || name == "data" {
        Mapping_(value, DataBlock, path);
      } else if name == "mensageria" || name == "messaging" {
        Mapping_(value, MessagingBlock, path);
      } else if name == "tls" {
        Mapping_(value, TlsBlock, path);
      } else if name == "slo" {
        Sequence_(value, Rules, path);
      } else if name == "requer" || name == "requires" {
        List(value, RequirementKinds, path);
      } else {
        WrongKind(value, Untouched, declaredSteps, path);
      }
    }

    method DescendStep(name: string, value: Node, path: seq<nat>)
      modifies this`edits
      ensures Bag() == old(Bag()) + EditBag(value, RoleInStep(name), declaredSteps, path)
      decreases value, 1, 1
    {
      hide EditBag;
      if name == "verificar" || name == "espera" || name == "expect" {
        Mapping_(value, ExpectBlock, path);
      } else if name == "captura" || name == "capture" {
        Mapping_(value, CaptureBlock, path);
      } else if name == "http" {
        Mapping_(value, HttpBlock, path);
      } else if name == "graphql" {
        Mapping_(value, GraphqlBlock, path);
      } else if name == "kafka" {
        Mapping_(value, KafkaBlock, path);
      } else if name == "amqp" {
        Mapping_(value, AmqpBlock, path);
      } else if name == "aguardar" || name == "await" {
        Mapping_(value, AwaitBlock, path);
      } else {
        WrongKind(value, Untouched, declaredSteps, path);
      }
    }

    method ValueNode(node: Node, table: Table, path: seq<nat>)
      modifies this`edits
      ensures Bag() == old(Bag()) + EditBag(node, Value(table), declaredSteps, path)
    {
      hide EditBag, OwnEdit;
      LeafEdits(node, Value(table), declaredSteps, path);
      RenameValue(node, table, path);
    }

    method Sequence_(node: Node, role: Role, path: seq<nat>)
      requires role.Profiles? || role.Steps? || role.Rules?
      modifies this`edits
      ensures Bag() == old(Bag()) + EditBag(node, role, declaredSteps, path)
      decreases node, 1, 0
    {
      hide EditBag, ChildBags, RoleOfChild;
      if node.kind != Sequence {
        WrongKind(node, role, declaredSteps, path);
        return;
      }
      BlockEdits(node, role, declaredSteps, path);
      NoChildYet(node, role, declaredSteps, path);
      for i := 0 to |node.content|
        invariant Bag() == old(Bag()) + ChildBags(node, role, declaredSteps, path, i)
      {
        NextChild(node, role, declaredSteps, path, i);
        ListRole(node, role, i);
        Item(node.content[i], role, path + [i]);
      }
    }

    method Item(node: Node, list: Role, path: seq<nat>)
      requires list.Profiles? || list.Steps? || list.Rules?
      modifies this`edits
      ensures Bag() == old(Bag()) + EditBag(node, RoleOfItem(list), declaredSteps, path)
      decreases node, 1, 1
    {
      hide EditBag;
      match list
      case Profiles => Profile_(node, path);
      case Steps => Mapping_(node, StepBlock, path);
      case Rules => SloRule(node, path);
    }

    method Profile_(node: Node, path: seq<nat>)
      modifies this`edits
      ensures Bag() == old(Bag()) + EditBag(node, Profile, declaredSteps, path)
      decreases node, 1, 0
    {
      hide EditBag, ChildBags;
      if node.kind != Mapping || |node.content| < 2 {
        WrongKind(node, Profile, declaredSteps, path);
        return;
      }
      BlockEdits(node, Profile, declaredSteps, path);
      ProfileSplit(node, declaredSteps, path, |node.content|);
      LeafEdits(node.content[0], Value(ProfileKinds), declaredSteps, path + [0]);
      RenameValue(node.content[0], ProfileKinds, path + [0]);
      Mapping_(node.content[1], ProfileBody, path + [1]);
    }

    method SloRule(node: Node, path: seq<nat>)
      modifies this`edits
      ensures Bag() == old(Bag()) + EditBag(node, Rule, declaredSteps, path)
      decreases node, 1, 0
    {
      hide EditBag, ChildBags, LimitValues;
      if node.kind != Mapping || |node.content| < 2 {
        WrongKind(node, Rule, declaredSteps, path);
        return;
      }
      BlockEdits(node, Rule, declaredSteps, path);
      RuleSplit(node, declaredSteps, path, |node.content|);
      TargetGetsOneEdit(node.content[0], declaredSteps, path + [0]);
      RenameValue(node.content[0], SloScopes, path + [0]);
      RenameDerivedStep(node.content[0], path + [0]);
      Mapping_(node.content[1], SloLimits, path + [1]);
      RuleLimits(node, path);
    }

    method RuleLimits(node: Node, path: seq<nat>)
      modifies this`edits
      ensures Bag() == old(Bag()) + LimitValues(node, declaredSteps, path, |node.content|)
    {
      hide ValueBags, LimitValues;
      NoLimitYet(node, declaredSteps, path);
      var index := 1;
      while index < |node.content|
        invariant index % 2 == 1
        invariant Bag() == old(Bag()) + LimitValues(node, declaredSteps, path, Capped(index, |node.content|))
      {
        var limits := node.content[index];
        NextLimits(node, declaredSteps, path, index);
        if limits.kind == Mapping {
          LimitsOf(limits, path + [index]);
        }
        index := index + 2;
      }
    }

    method LimitsOf(limits: Node, path: seq<nat>)
      modifies this`edits
      ensures Bag() == old(Bag()) + ValueBags(limits, Limit, declaredSteps, path, |limits.content|)
    {
      hide EditBag, HasWord, ReplaceAll, ValueBags;
      NoValueYet(limits, Limit, declaredSteps, path);
      var i := 1;
      while i < |limits.content|
        invariant i % 2 == 1
        invariant Bag() == old(Bag()) + ValueBags(limits, Limit, declaredSteps, path, Capped(i, |limits.content|))
      {
        var limit := limits.content[i];
        NextValue(limits, Limit, declaredSteps, path, i);
        LeafEdits(limit, Limit, declaredSteps, path + [i]);
        if HasWord(limit.value, "pior") {
          ReplacedIsNotEmpty(limit.value);
          Rename(limit, ReplaceAll(limit.value, "pior", "worse"), path + [i]);
        }
        i := i + 2;
      }
    }
  }

  function DerivedEdit(node: Node, declared: set<string>, path: seq<nat>): multiset<Edit> {
    if node.kind != Scalar || RenamedDerivedStep(node.value, declared) == node.value then multiset{}
    else multiset{Edit(path, node.value, RenamedDerivedStep(node.value, declared))}
  }

  /** The two renames a rule's target may get never both apply. */
  lemma {:induction false} TargetGetsOneEdit(node: Node, declared: set<string>, path: seq<nat>)
    ensures EditBag(node, RuleTarget, declared, path)
         == OwnEdit(node, Value(SloScopes), declared, path) + DerivedEdit(node, declared, path)
  {
    hide EditBag, Trim;
    LeafEdits(node, RuleTarget, declared, path);
    var name := Trim(node.value);
    if name in Values(SloScopes) {
      assert name == "jornada" || name == "regressao";
      assert name[0] == 'j' || name[0] == 'r';
      assert RenamedDerivedStep(node.value, declared) == node.value;
    }
  }

  lemma ReplacedIsNotEmpty(s: string)
    requires HasWord(s, "pior")
    ensures ReplaceAll(s, "pior", "worse") != ""
  {
    assert s != [];
  }

  lemma LongTablesAreWords(where: Context, name: string)
    requires name in Keys(where)
    requires where == SloLimits || where == AmqpBlock || where == TopLevel || where == KafkaBlock
    ensures Keys(where)[name] != ""
  {
  }

  lemma KeysAreWords(where: Context, name: string)
    requires name in Keys(where)
    ensures Keys(where)[name] != ""
  {
    if where == SloLimits || where == AmqpBlock || where == TopLevel || where == KafkaBlock {
      LongTablesAreWords(where, name);
    }
  }

  lemma BlockRoles(node: Node, where: Context, index: nat)
    requires node.kind == Mapping && index % 2 == 0 && index + 1 < |node.content|
    ensures RoleOfChild(Block(where), node, index) == Key(where)
    ensures RoleOfChild(Block(where), node, index + 1)
         == RoleOfValue(where, node.content[index].value, node.content[index + 1].kind)
  {
    hide RoleOfValue;
  }

  lemma NextPair(node: Node, where: Context, declared: set<string>, path: seq<nat>, index: nat)
    requires node.kind == Mapping && index % 2 == 0 && index + 1 < |node.content|
    ensures var key, value := node.content[index], node.content[index + 1];
            ChildBags(node, Block(where), declared, path, index + 2)
            == ChildBags(node, Block(where), declared, path, index)
             + EditBag(key, Key(where), declared, path + [index])
             + EditBag(value, RoleOfValue(where, key.value, value.kind), declared, path + [index + 1])
  {
    NextChild(node, Block(where), declared, path, index);
    NextChild(node, Block(where), declared, path, index + 1);
    BlockRoles(node, where, index);
    hide EditBag, ChildBags, RoleOfChild, RoleOfValue;
  }

  lemma LoneKey(node: Node, where: Context, index: nat)
    requires node.kind == Mapping && index % 2 == 0 && index + 1 == |node.content|
    ensures RoleOfChild(Block(where), node, index) == Untouched
  {
  }

  lemma {:induction false} ProfileSplit(node: Node, declared: set<string>, path: seq<nat>, k: nat)
    requires node.kind == Mapping && 2 <= k <= |node.content|
    ensures ChildBags(node, Profile, declared, path, k)
         == EditBag(node.content[0], Value(ProfileKinds), declared, path + [0])
          + EditBag(node.content[1], Block(ProfileBody), declared, path + [1])
  {
    hide EditBag, ChildBags;
    NextChild(node, Profile, declared, path, k - 1);
    if k == 2 {
      NoChildYet(node, Profile, declared, path);
      NextChild(node, Profile, declared, path, 0);
    } else {
      ProfileSplit(node, declared, path, k - 1);
      UntouchedHasNoEdits(node.content[k - 1], declared, path + [k - 1]);
    }
  }

  /** The names declared on one step. */
  method StepNames(step: Node) returns (names: set<string>)
    ensures names == NamesInStep(step)
  {
    names := {};
    if step.kind != Mapping {
      return;
    }
    var i := 0;
    while i + 1 < |step.content|
      invariant i % 2 == 0 && i <= |step.content| + 1
      invariant names == set k | 0 <= k < i && k % 2 == 0 && k + 1 < |step.content| && IsNameKey(step.content[k].value)
                           :: Trim(step.content[k + 1].value)
    {
      if IsNameKey(step.content[i].value) {
        names := names + {Trim(step.content[i + 1].value)};
      }
      i := i + 2;
    }
  }

  method ScenarioNames(list: Node) returns (names: set<string>)
    ensures names == NamesInScenario(list)
  {
    hide NamesInStep;
    names := {};
    for i := 0 to |list.content|
      invariant names == set k, name | 0 <= k < i && name in NamesInStep(list.content[k]) :: name
    {
      var found := StepNames(list.content[i]);
      names := names + found;
    }
  }

  /** declaredStepNames: every name on a step of every list under the scenario key. */
  method DeclaredStepNames(document: Node) returns (names: set<string>)
    ensures names == DeclaredNames(document)
  {
    hide NamesInScenario;
    names := {};
    var i := 0;
    while i + 1 < |document.content|
      invariant i % 2 == 0 && i <= |document.content| + 1
      invariant forall name :: name in names <==>
          exists k :: 0 <= k < i && k < |document.content| && name in NamesInPair(document, k)
    {
      assert NamesInPair(document, i + 1) == {};
      ghost var was := names;
      if IsScenarioKey(document.content[i].value) {
        var found := ScenarioNames(document.content[i + 1]);
        names := names + found;
      }
      assert names == was + NamesInPair(document, i);
      i := i + 2;
    }
    assert i < |document.content| ==> NamesInPair(document, i) == {};
  }

  /** Migrate, up to the rewriting of the text: a document that is not a mapping is left alone. */
  method CollectEdits(document: Node) returns (edits: seq<Edit>)
    ensures multiset(edits) == MigrationEdits(document)
  {
    hide EditBag, DeclaredNames;
    if document.kind != Mapping {
      return [];
    }
    var declared := DeclaredStepNames(document);
    var rewriter := new Rewriter(declared);
    rewriter.Mapping_(document, TopLevel, []);
    edits := rewriter.edits;
  }
}
