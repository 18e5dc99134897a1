/** internal/cli/breaker/breaker.go: one breaker per key, created on first use. */
module BreakerModule {
  import W = Window
  import opened SubBreakerSpec
  import Spec = BreakerSpec
  import opened SubBreakers

  class Breaker {
    ghost var View: Spec.Breakers
    ghost var Owner: map<object, string>  // which key an object below belongs to
    ghost var Repr: set<object>

    const opts: Options
    var breakers: map<string, SubBreaker>

    ghost predicate Valid()
      reads this, Repr
    {
      && this !in Owner && Repr == {this} + Owner.Keys
      && 1 <= opts.windowCapacity
      && View.Keys == breakers.Keys
      && (forall k :: k in breakers ==> breakers[k] in Repr && breakers[k].Repr <= Repr)
      && (forall k :: k in breakers ==> Belongs(breakers[k], Owner, k))
      && (forall k :: k in breakers ==> Fits(breakers[k], Config(), View[k]))
    }

    ghost function Config(): Settings
      requires 1 <= opts.windowCapacity
    {
      NewSettings(opts)
    }

    static ghost predicate Fits(sb: SubBreaker, cfg: Settings, state: State)
      reads sb, sb.Repr
    {
      sb.Valid() && sb.settings == cfg && sb.View() == state
    }

    /** No two keys share an object. */
    static ghost predicate Belongs(sb: SubBreaker, owner: map<object, string>, key: string)
      reads sb
    {
      sb in owner && owner[sb] == key && forall o :: o in sb.Repr ==> o in owner && owner[o] == key
    }

    static ghost function Claim(owner: map<object, string>, objects: set<object>, key: string): (r: map<object, string>)
      ensures r.Keys == owner.Keys + objects
      ensures forall o :: o in r ==> r[o] == if o in objects then key else owner[o]
    {
      owner + map o | o in objects :: key
    }

    static lemma ClaimCovers(sb: SubBreaker, owner: map<object, string>, key: string)
      requires sb in sb.Repr
      ensures Belongs(sb, Claim(owner, sb.Repr, key), key)
    {}

    static lemma ClaimKeeps(sb: SubBreaker, owner: map<object, string>, k: string, objects: set<object>, key: string)
      requires Belongs(sb, owner, k) && k != key
      requires forall o :: o in objects && o in owner ==> owner[o] == key
      ensures Belongs(sb, Claim(owner, objects, key), k)
    {}

    static lemma BelongsInside(sb: SubBreaker, owner: map<object, string>, key: string)
      requires Belongs(sb, owner, key)
      ensures sb in owner.Keys && sb.Repr <= owner.Keys
    {}

    constructor (opts: Options)
      requires 1 <= opts.windowCapacity
      ensures Valid() && fresh(Repr)
      ensures this.opts == opts && View == map[]
    {
      this.opts := opts;
      breakers := map[];
      View := map[];
      new;
      Repr, Owner := {this}, map[];
    }

    method Create(key: string, created: int) returns (sb: SubBreaker)
      requires Valid() && key !in breakers
      modifies Repr
      ensures Valid() && fresh(Repr - old(Repr))
      ensures key in breakers && sb == breakers[key]
      ensures View == old(View)[key := Fresh(created)]
    {
      hide SubBreaker.Valid, SubBreaker.View, NewSettings, Fresh;
      sb := new SubBreaker(opts, created);
      breakers := breakers[key := sb];
      ghost var newborn := Fresh(created);
      View := View[key := newborn];
      assert sb.View() == newborn;
      Adopt(key, sb);
      assert sb.View() == newborn;
    }

    /** The breaker of a key, created when the key is new. */
    method GetOrCreate(key: string, created: int) returns (sb: SubBreaker)
      requires Valid()
      modifies Repr
      ensures Valid() && fresh(Repr - old(Repr))
      ensures key in breakers && sb == breakers[key]
      ensures View == old(View)[key := Spec.Lookup(old(View), key, created)]
    {
      hide Fits, Belongs;
      if key in breakers {
        sb := breakers[key];
      } else {
        sb := Create(key, created);
      }
    }

    /** Takes over the objects a sub-breaker has allocated, and its new state. */
    ghost method Adopt(key: string, sb: SubBreaker)
      requires this !in Owner && this !in sb.Repr && 1 <= opts.windowCapacity
      requires View.Keys == breakers.Keys && key in breakers && breakers[key] == sb
      requires Fits(sb, Config(), sb.View())
      requires sb in sb.Repr && forall o :: o in sb.Repr && o in Owner ==> Owner[o] == key
      requires forall k :: k in breakers && k != key ==> Belongs(breakers[k], Owner, k)
      requires forall k :: k in breakers && k != key ==> Fits(breakers[k], Config(), View[k])
      modifies this`View, this`Repr, this`Owner
      ensures Valid()
      ensures Repr == {this} + old(Owner).Keys + sb.Repr
      ensures View == old(View)[key := sb.View()]
    {
      hide SubBreaker.Valid, SubBreaker.View, NewSettings, Claim, Belongs, Fits;
      ghost var before := Owner;
      View := View[key := sb.View()];
      Owner := Claim(Owner, sb.Repr, key);
      Repr := {this} + Owner.Keys;
      ClaimCovers(sb, before, key);
      forall k | k in breakers
        ensures Belongs(breakers[k], Owner, k) && breakers[k] in Owner.Keys && breakers[k].Repr <= Owner.Keys
      {
        if k != key {
          ClaimKeeps(breakers[k], before, k, sb.Repr, key);
        }
        BelongsInside(breakers[k], Owner, k);
      }
    }

    method Ask(key: string, sb: SubBreaker, now: int) returns (ok: bool)
      requires Valid() && key in breakers && sb == breakers[key]
      modifies Repr
      ensures Valid() && fresh(Repr - old(Repr))
      ensures View == old(View)[key := Step(Config(), old(View)[key], Allow(now))]
      ensures ok == Admits(Config(), old(View)[key], Allow(now))
    {
      hide SubBreaker.Valid, SubBreaker.View, NewSettings, Step, Admits;
      ok := sb.Allowed(now);
      Adopt(key, sb);
    }

    method Tell(key: string, sb: SubBreaker, now: int, result: W.Metric)
      requires Valid() && key in breakers && sb == breakers[key]
      modifies Repr
      ensures Valid() && fresh(Repr - old(Repr))
      ensures View == old(View)[key := Step(Config(), old(View)[key], Result(now, result))]
    {
      hide SubBreaker.Valid, SubBreaker.View, NewSettings, Step;
      sb.Record(now, result);
      Adopt(key, sb);
    }

    method Allowed(key: string, created: int, now: int) returns (ok: bool)
      requires Valid()
      modifies Repr
      ensures Valid() && fresh(Repr - old(Repr))
      ensures var k := Spec.KeyedOp(key, created, Allow(now));
              View == Spec.Apply(Config(), old(View), k) && ok == Spec.Answer(Config(), old(View), k)
    {
      hide Valid, Step, Admits;
      var sb := GetOrCreate(key, created);
      ok := Ask(key, sb, now);
    }

    method Record(key: string, created: int, now: int, result: W.Metric)
      requires Valid()
      modifies Repr
      ensures Valid() && fresh(Repr - old(Repr))
      ensures View == Spec.Apply(Config(), old(View), Spec.KeyedOp(key, created, Result(now, result)))
    {
      hide Valid, Step;
      var sb := GetOrCreate(key, created);
      Tell(key, sb, now, result);
    }
  }
}
