/** Tables of the registry indexer, and the statements that change them. */
module RegistryDb {
  import opened Wrappers

  const MAX_I64 := 0x7fff_ffff_ffff_ffff

  datatype OperatorRow = OperatorRow(
    owner: nat,
    registeredAt: nat,
    unregisteredAt: Option<nat>,
    slashedAt: Option<nat>)

  datatype ProtocolRow = ProtocolRow(committer: nat, optedInAt: nat, optedOutAt: nat)

  datatype Pubkey = Pubkey(xA: nat, xB: nat, yA: nat, yB: nat)

  // Keys: root; (root, index); (slasher, root).
  datatype Tables = Tables(
    operators: map<nat, OperatorRow>,
    registrations: map<(nat, nat), Pubkey>,
    protocols: map<(nat, nat), ProtocolRow>)

  datatype Statement =
    | InsertOperator(root: nat, owner: nat, at: nat)
    | InsertRegistration(root: nat, idx: nat, key: Pubkey)
    | InsertProtocol(root: nat, slasher: nat, committer: nat, at: nat)
    | SetUnregistered(root: nat, at: nat)
    | SetSlashed(root: nat, at: nat)
  {
    predicate IsInsert() { InsertOperator? || InsertRegistration? || InsertProtocol? }

    // The number bound as a signed 64-bit value.
    function Bound(): nat { if InsertRegistration? then idx else at }
  }

  // Inserts fail on a taken primary key or a missing foreign key; updates of a missing row do nothing.
  predicate Refused(t: Tables, st: Statement) {
    || st.Bound() > MAX_I64
    || match st
       case InsertOperator(root, _, _) => root in t.operators
       case InsertRegistration(root, idx, _) => (root, idx) in t.registrations || root !in t.operators
       case InsertProtocol(root, slasher, _, _) => (slasher, root) in t.protocols || root !in t.operators
       case _ => false
  }

  function Exec(t: Tables, st: Statement): Tables
    requires !Refused(t, st)
  {
    match st
    case InsertOperator(root, owner, at) =>
      t.(operators := t.operators[root := OperatorRow(owner, at, None, None)])
    case InsertRegistration(root, idx, key) =>
      t.(registrations := t.registrations[(root, idx) := key])
    case InsertProtocol(root, slasher, committer, at) =>
      t.(protocols := t.protocols[(slasher, root) := ProtocolRow(committer, at, 0)])
    case SetUnregistered(root, at) =>
      if root !in t.operators then t
      else t.(operators := t.operators[root := t.operators[root].(unregisteredAt := Some(at))])
    case SetSlashed(root, at) =>
      if root !in t.operators then t
      else t.(operators := t.operators[root := t.operators[root].(slashedAt := Some(at))])
  }

  // The row this insert would add is already there.
  predicate Taken(t: Tables, st: Statement) {
    match st
    case InsertOperator(root, _, _) => root in t.operators
    case InsertRegistration(root, idx, _) => (root, idx) in t.registrations
    case InsertProtocol(root, slasher, _, _) => (slasher, root) in t.protocols
    case _ => false
  }

  class DataBase {
    var operators: map<nat, OperatorRow>
    var registrations: map<(nat, nat), Pubkey>
    var protocols: map<(nat, nat), ProtocolRow>
    var indexedBlock: nat

    function Contents(): Tables
      reads this
    {
      Tables(operators, registrations, protocols)
    }

    // What a statement did: nothing when refused, otherwise its effect.
    twostate predicate Executed(st: Statement, ok: bool)
      reads this
    {
      && (ok <==> !Refused(old(Contents()), st))
      && Contents() == (if ok then Exec(old(Contents()), st) else old(Contents()))
      && indexedBlock == old(indexedBlock)
    }

    constructor ()
      ensures Contents() == Tables(map[], map[], map[]) && indexedBlock == 0
    {
      operators, registrations, protocols, indexedBlock := map[], map[], map[], 0;
    }

    method InsertOperator(root: nat, owner: nat, at: nat) returns (ok: bool)
      modifies this
      ensures Executed(Statement.InsertOperator(root, owner, at), ok)
    {
      if at > MAX_I64 || root in operators {
        return false;
      }
      operators := operators[root := OperatorRow(owner, at, None, None)];
      return true;
    }

    method InsertSignedRegistration(root: nat, idx: nat, key: Pubkey) returns (ok: bool)
      modifies this
      ensures Executed(InsertRegistration(root, idx, key), ok)
    {
      if idx > MAX_I64 || (root, idx) in registrations || root !in operators {
        return false;
      }
      registrations := registrations[(root, idx) := key];
      return true;
    }

    method InsertProtocol(root: nat, slasher: nat, committer: nat, at: nat) returns (ok: bool)
      modifies this
      ensures Executed(Statement.InsertProtocol(root, slasher, committer, at), ok)
    {
      if at > MAX_I64 || (slasher, root) in protocols || root !in operators {
        return false;
      }
      protocols := protocols[(slasher, root) := ProtocolRow(committer, at, 0)];
      return true;
    }

    method SetOperatorUnregistered(root: nat, at: nat) returns (ok: bool)
      modifies this
      ensures Executed(SetUnregistered(root, at), ok)
    {
      if at > MAX_I64 {
        return false;
      }
      if root in operators {
        operators := operators[root := operators[root].(unregisteredAt := Some(at))];
      }
      return true;
    }

    method SetOperatorSlashed(root: nat, at: nat) returns (ok: bool)
      modifies this
      ensures Executed(SetSlashed(root, at), ok)
    {
      if at > MAX_I64 {
        return false;
      }
      if root in operators {
        operators := operators[root := operators[root].(slashedAt := Some(at))];
      }
      return true;
    }

    method UpdateStatus(block: nat) returns (ok: bool)
      modifies `indexedBlock
      ensures ok <==> block <= MAX_I64
      ensures indexedBlock == if ok then block else old(indexedBlock)
    {
      ok := block <= MAX_I64;
      if ok {
        indexedBlock := block;
      }
    }
  }
}
