/**
 * The `v-permission` directive: how its binding is read (`normalizeOptions`)
 * and when the granted permission codes authorise it (`hasAuth`). The
 * permission set injected into the application is an input; touching the
 * element is reduced to the decision taken.
 */
module Permission {
  import opened Common

  datatype Mode = Any | All
  datatype Effect = Hide | Remove | Disable

  /** `string | string[]`. */
  datatype Codes = One(code: string) | Many(list: seq<string>)

  /** The directive's value: a code, a list of codes, an options object, or `null`/`undefined`. */
  datatype PermissionValue =
    | Code(code: string)
    | CodeList(list: seq<string>)
    | Options(codes: Option<Codes>, mode: Option<Mode>, effect: Option<Effect>)
    | Missing

  /** The modifiers `.any`, `.all`, `.hide`, `.remove` and `.disable`. */
  datatype Modifiers = Modifiers(any: bool, all: bool, hide: bool, remove: bool, disable: bool)

  datatype NormalizedOptions = NormalizedOptions(codes: Codes, mode: Mode, effect: Effect)

  /** `v?.codes || []`: an absent or empty-string code list becomes `[]`. */
  function CodesOf(v: PermissionValue): (c: Codes)
    ensures v.Code? ==> c == One(v.code)
    ensures v.CodeList? ==> c == Many(v.list)
    ensures v.Missing? ==> c == Many([])
    ensures v.Options? && v.codes.Some? && v.codes.value != One("") ==> c == v.codes.value
    ensures v.Options? && (v.codes.None? || v.codes.value == One("")) ==> c == Many([])
  {
    match v
    case Code(s) => One(s)
    case CodeList(l) => Many(l)
    case Options(codes, _, _) =>
      if codes.None? || codes.value == One("") then Many([]) else codes.value
    case Missing => Many([])
  }

  /** `normalizeOptions(binding)`: modifiers win over the argument, which wins over the value's own settings. */
  function NormalizeOptions(value: PermissionValue, mods: Modifiers, arg: Option<Effect>): (o: NormalizedOptions)
    ensures o.codes == CodesOf(value)
    ensures mods.all ==> o.mode == All
    ensures !mods.all && mods.any ==> o.mode == Any
    ensures !mods.all && !mods.any && value.Options? && value.mode.Some? ==> o.mode == value.mode.value
    ensures !mods.all && !mods.any && !(value.Options? && value.mode.Some?) ==> o.mode == Any
    ensures mods.remove ==> o.effect == Remove
    ensures !mods.remove && mods.hide ==> o.effect == Hide
    ensures !mods.remove && !mods.hide && mods.disable ==> o.effect == Disable
    ensures !mods.remove && !mods.hide && !mods.disable && arg.Some? ==> o.effect == arg.value
    ensures !mods.remove && !mods.hide && !mods.disable && arg.None? && value.Options? && value.effect.Some? ==> o.effect == value.effect.value
    ensures !mods.remove && !mods.hide && !mods.disable && arg.None? && !(value.Options? && value.effect.Some?) ==> o.effect == Hide
  {
    var baseMode := if value.Options? then value.mode else None;
    var baseEffect := if value.Options? then value.effect else None;
    var mode := if mods.all then All else if mods.any then Any else baseMode.GetOr(Any);
    var effect :=
      if mods.remove then Remove
      else if mods.hide then Hide
      else if mods.disable then Disable
      else if arg.Some? then arg.value
      else baseEffect.GetOr(Hide);
    NormalizedOptions(CodesOf(value), mode, effect)
  }

  /** A single code is a one-element list. */
  function ListOf(codes: Codes): (l: seq<string>)
    ensures codes.One? ==> l == [codes.code]
  {
    match codes
    case One(c) => [c]
    case Many(l) => l
  }

  /**
   * `hasAuth(set, codes, mode)`: nothing is authorised without an injected
   * set; with one, an empty list is authorised, `Any` needs one granted code
   * and `All` needs every code granted.
   */
  function HasAuth(granted: Option<set<string>>, codes: Codes, mode: Mode): (b: bool)
    ensures granted.None? ==> !b
    ensures granted.Some? && ListOf(codes) == [] ==> b
    ensures granted.Some? && ListOf(codes) != [] && mode == Any ==>
      (b <==> exists i :: 0 <= i < |ListOf(codes)| && ListOf(codes)[i] in granted.value)
    ensures granted.Some? && ListOf(codes) != [] && mode == All ==>
      (b <==> forall i :: 0 <= i < |ListOf(codes)| ==> ListOf(codes)[i] in granted.value)
  {
    if granted.None? then false
    else
      var list := ListOf(codes);
      if |list| == 0 then true
      else if mode == Any then exists i :: 0 <= i < |list| && list[i] in granted.value
      else forall i :: 0 <= i < |list| ==> list[i] in granted.value
  }

  /** Granting more codes never takes an authorisation away. */
  lemma HasAuthMonotone(granted: set<string>, more: set<string>, codes: Codes, mode: Mode)
    requires granted <= more
    requires HasAuth(Some(granted), codes, mode)
    ensures HasAuth(Some(more), codes, mode)
  {
    var list := ListOf(codes);
    if |list| > 0 && mode == Any {
      var i :| 0 <= i < |list| && list[i] in granted;
      assert list[i] in more;
    }
  }

  /** Where every code is needed, one is enough. */
  lemma AllImpliesAny(granted: Option<set<string>>, codes: Codes)
    requires HasAuth(granted, codes, All)
    ensures HasAuth(granted, codes, Any)
  {
    var list := ListOf(codes);
    if |list| > 0 {
      assert list[0] in granted.value;
    }
  }

  /** What `mounted`/`updated` do to the element. */
  datatype Reaction = ApplyEffect(effect: Effect) | RestoreElement

  function React(granted: Option<set<string>>, value: PermissionValue, mods: Modifiers, arg: Option<Effect>): (r: Reaction)
    ensures var o := NormalizeOptions(value, mods, arg);
      (r == RestoreElement <==> HasAuth(granted, o.codes, o.mode)) &&
      (r.ApplyEffect? ==> r.effect == o.effect)
  {
    var o := NormalizeOptions(value, mods, arg);
    if !HasAuth(granted, o.codes, o.mode) then ApplyEffect(o.effect) else RestoreElement
  }

  /** Without an injected permission set every bound element gets its effect, even with no codes at all. */
  lemma NoSetNoAccess(value: PermissionValue, mods: Modifiers, arg: Option<Effect>)
    ensures React(None, value, mods, arg) == ApplyEffect(NormalizeOptions(value, mods, arg).effect)
  {
  }
}
