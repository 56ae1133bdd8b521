/**
 * The part of the Cedar policy language that the projected policies use: expressions with `has`
 * guards and short-circuit connectives, and authorization in which a forbid overrides every permit
 * and a policy whose condition errors is skipped.
 */
module Cedar {
  import opened Common

  /** The entity types of the Patrice schema. */
  datatype EntityType =
    | User | Role | Division | Team | Organization | Invitation | Session | Task | Message | Attachment | Integration

  datatype Uid = Uid(kind: EntityType, id: Id)

  /** Attribute values; `Other` stands for the strings and numbers that no policy looks into. */
  datatype Value = Bool(b: bool) | Ref(uid: Uid) | Refs(uids: set<Uid>) | Other(text: string)

  datatype Entity = Entity(uid: Uid, attrs: map<string, Value>, parents: seq<Uid>)

  datatype Expr =
    | Lit(value: Value)
    | Principal
    | Resource
    | Has(of: Expr, attr: string)
    | Get(of: Expr, attr: string)
    | Eq(left: Expr, right: Expr)
    | And(left: Expr, right: Expr)
    | Or(left: Expr, right: Expr)
    | Not(of: Expr)
    | Contains(of: Expr, item: Expr)

  datatype Outcome = Val(value: Value) | MissingAttribute | TypeFault

  /** What an entity store knows of one entity. */
  datatype Facts = Facts(attrs: map<string, Value>, parents: set<Uid>)

  datatype Env = Env(principal: Uid, action: string, resource: Uid, store: map<Uid, Facts>)

  function AttrsOf(env: Env, uid: Uid): map<string, Value> {
    if uid in env.store then env.store[uid].attrs else map[]
  }

  function Eval(e: Expr, env: Env): Outcome {
    match e
    case Lit(v) => Val(v)
    case Principal => Val(Ref(env.principal))
    case Resource => Val(Ref(env.resource))
    case Has(of, attr) =>
      (match Eval(of, env)
       case Val(Ref(uid)) => Val(Bool(attr in AttrsOf(env, uid)))
       case Val(_) => TypeFault
       case fault => fault)
    case Get(of, attr) =>
      (match Eval(of, env)
       case Val(Ref(uid)) => if attr in AttrsOf(env, uid) then Val(AttrsOf(env, uid)[attr]) else MissingAttribute
       case Val(_) => TypeFault
       case fault => fault)
    case Eq(left, right) =>
      (match (Eval(left, env), Eval(right, env))
       case (Val(a), Val(b)) => Val(Bool(a == b))
       case (Val(_), fault) => fault
       case (fault, _) => fault)
    case And(left, right) =>
      (match Eval(left, env)
       case Val(Bool(a)) => if a then AsBool(Eval(right, env)) else Val(Bool(false))
       case Val(_) => TypeFault
       case fault => fault)
    case Or(left, right) =>
      (match Eval(left, env)
       case Val(Bool(a)) => if a then Val(Bool(true)) else AsBool(Eval(right, env))
       case Val(_) => TypeFault
       case fault => fault)
    case Not(of) =>
      (match Eval(of, env)
       case Val(Bool(a)) => Val(Bool(!a))
       case Val(_) => TypeFault
       case fault => fault)
    case Contains(of, item) =>
      (match (Eval(of, env), Eval(item, env))
       case (Val(Refs(uids)), Val(v)) => Val(Bool(v.Ref? && v.uid in uids))
       case (Val(_), Val(_)) => TypeFault
       case (Val(_), fault) => fault
       case (fault, _) => fault)
  }

  function AsBool(o: Outcome): Outcome {
    if o.Val? && !o.value.Bool? then TypeFault else o
  }

  datatype Effect = Permit | Forbid

  /** `principal in role, action == …`; a part that is absent matches everything. */
  datatype Policy = Policy(effect: Effect, role: Option<Uid>, action: Option<string>, condition: Expr)

  predicate Within(env: Env, uid: Uid, ancestor: Uid) {
    uid == ancestor || (uid in env.store && ancestor in env.store[uid].parents)
  }

  predicate InScope(p: Policy, env: Env) {
    && (p.role.Some? ==> Within(env, env.principal, p.role.value))
    && (p.action.Some? ==> p.action.value == env.action)
  }

  /** The policy applies; one whose condition faults does not. */
  predicate Satisfied(p: Policy, env: Env) {
    InScope(p, env) && Eval(p.condition, env) == Val(Bool(true))
  }

  predicate IsAuthorized(policies: seq<Policy>, env: Env) {
    && (exists p <- policies :: p.effect == Permit && Satisfied(p, env))
    && (forall p <- policies :: p.effect == Forbid ==> !Satisfied(p, env))
  }
}
