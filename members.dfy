/**
 * The members `self.__dir__()` lists for an analyzer, and the registry of
 * checks that `__prepare_checks` builds from them.
 */
module Members {
  import opened Wrappers
  import opened Checks

  /** `type(self).__name__` and `self.__check_method_prefix`. */
  const ClassName := "CodeAnalyzer"
  const CheckMethodPrefix := "__check_"

  /** Python's name mangling of a private member `__x` of the class: `_CodeAnalyzer__x`. */
  function Mangled(name: string): string
  {
    "_" + ClassName + name
  }

  /**
   * A member of the instance as `self.__dir__()` lists it: a plain
   * attribute, or a method, which for the six checks is that check.
   */
  datatype Member = Attribute(name: string) | Routine(name: string, check: Option<Check>)

  /** The filter of `__prepare_checks`: callable, and named with the mangled check prefix. */
  predicate Registered(m: Member)
  {
    m.Routine? && Mangled(CheckMethodPrefix) <= m.name
  }

  /** Every registered member is one of the check methods. */
  predicate WellFormedMembers(members: seq<Member>)
  {
    forall m :: m in members && Registered(m) ==> m.check.Some?
  }

  /** The checks `__prepare_checks` appends, in the order of `members`. */
  function Registry(members: seq<Member>): (r: seq<Check>)
    requires WellFormedMembers(members)
    ensures |r| <= |members|
  {
    if members == [] then []
    else
      var m := members[|members| - 1];
      var front := members[..|members| - 1];
      assert members == front + [m];
      Registry(front) + (if Registered(m) then [m.check.value] else [])
  }

  /** The members the instance owns itself, in assignment order. */
  const InstanceMembers: seq<Member> := [
    Attribute("path_to_file"),
    Attribute("_CodeAnalyzer__error_messages"),
    Attribute("_CodeAnalyzer__error_codes"),
    Attribute("_CodeAnalyzer__errors"),
    Attribute("_CodeAnalyzer__line_length_limit"),
    Attribute("_CodeAnalyzer__checks"),
    Attribute("_CodeAnalyzer__check_method_prefix")
  ]

  /** The class's members before its check methods. */
  const LeadingClassMembers: seq<Member> := [
    Attribute("__module__"),
    Routine("__init__", None),
    Routine("perform_checks", None)
  ]

  /** The six check methods of the class, in definition order. */
  const CheckMembers: seq<Member> := [
    Routine("_CodeAnalyzer__check_line_length", Some(LineLength)),
    Routine("_CodeAnalyzer__check_indentation", Some(Indentation)),
    Routine("_CodeAnalyzer__check_semicolon", Some(Semicolon)),
    Routine("_CodeAnalyzer__check_spaces", Some(Spaces)),
    Routine("_CodeAnalyzer__check_todo", Some(Todo)),
    Routine("_CodeAnalyzer__check_blank_lines", Some(BlankLines))
  ]

  /** The class's members after its check methods. */
  const TrailingClassMembers: seq<Member> := [
    Routine("_CodeAnalyzer__is_in_comment", None),
    Routine("_CodeAnalyzer__is_in_string", None),
    Routine("_CodeAnalyzer__prepare_checks", None),
    Routine("get_errors", None),
    Attribute("__dict__"),
    Attribute("__weakref__"),
    Attribute("__doc__")
  ]

  /**
   * What `self.__dir__()` lists for a fresh instance: its own attributes,
   * then the class's members in definition order.  The attributes inherited
   * from `object` are left out.
   */
  const ClassMembers: seq<Member> := InstanceMembers + LeadingClassMembers + CheckMembers + TrailingClassMembers

  /** Registering the members of `a + b` registers those of `a`, then those of `b`. */
  lemma {:induction false} RegistryAppend(a: seq<Member>, b: seq<Member>)
    requires WellFormedMembers(a) && WellFormedMembers(b)
    ensures WellFormedMembers(a + b)
    ensures Registry(a + b) == Registry(a) + Registry(b)
    decreases |b|
  {
    if b == [] {
      assert a + b == a;
    } else {
      var front, last := b[..|b| - 1], b[|b| - 1];
      assert b == front + [last];
      assert a + b == (a + front) + [last];
      RegistryAppend(a, front);
    }
  }

  /** A list without a registered member registers nothing. */
  lemma {:induction false} RegistryNone(members: seq<Member>)
    requires forall i :: 0 <= i < |members| ==> !Registered(members[i])
    ensures WellFormedMembers(members) && Registry(members) == []
  {
    if members != [] {
      var front := members[..|members| - 1];
      assert members == front + [members[|members| - 1]];
      RegistryNone(front);
    }
  }

  /**
   * The registry holds exactly the checks of the callable members whose
   * name starts with the mangled prefix.
   */
  lemma {:induction false} RegistryExactly(members: seq<Member>, c: Check)
    requires WellFormedMembers(members)
    ensures c in Registry(members) <==>
            exists m :: m in members && Registered(m) && m.check == Some(c)
  {
    if members != [] {
      var front := members[..|members| - 1];
      assert members == front + [members[|members| - 1]];
      RegistryExactly(front, c);
    }
  }

  /** The mangled check prefix, spelled out. */
  lemma MangledPrefix()
    ensures Mangled(CheckMethodPrefix) == "_CodeAnalyzer__check_"
  {
  }

  /** None of the instance's own attributes is registered: they are not callable. */
  lemma InstanceMembersUnregistered()
    ensures WellFormedMembers(InstanceMembers) && Registry(InstanceMembers) == []
  {
    RegistryNone(InstanceMembers);
  }

  /** None of the class's members before its check methods is registered. */
  lemma LeadingMembersUnregistered()
    ensures WellFormedMembers(LeadingClassMembers) && Registry(LeadingClassMembers) == []
  {
    RegistryNone(LeadingClassMembers);
  }

  /** None of the class's members after its check methods is registered. */
  lemma TrailingMembersUnregistered()
    ensures WellFormedMembers(TrailingClassMembers) && Registry(TrailingClassMembers) == []
  {
    var p := Mangled(CheckMethodPrefix);
    MangledPrefix();
    assert !(p <= "_CodeAnalyzer__is_in_comment") by { assert p[15] != "_CodeAnalyzer__is_in_comment"[15]; }
    assert !(p <= "_CodeAnalyzer__is_in_string") by { assert p[15] != "_CodeAnalyzer__is_in_string"[15]; }
    assert !(p <= "_CodeAnalyzer__prepare_checks") by { assert p[15] != "_CodeAnalyzer__prepare_checks"[15]; }
    RegistryNone(TrailingClassMembers);
  }

  /** Each check method is callable and named with the mangled prefix. */
  lemma CheckMembersCallable()
    ensures forall i :: 0 <= i < |CheckMembers| ==> Registered(CheckMembers[i]) && CheckMembers[i].check.Some?
  {
    var p := Mangled(CheckMethodPrefix);
    MangledPrefix();
    assert p <= "_CodeAnalyzer__check_line_length";
    assert p <= "_CodeAnalyzer__check_indentation";
    assert p <= "_CodeAnalyzer__check_semicolon";
    assert p <= "_CodeAnalyzer__check_spaces";
    assert p <= "_CodeAnalyzer__check_todo";
    assert p <= "_CodeAnalyzer__check_blank_lines";
  }

  /** A list of registered check methods registers their checks, one for one and in order. */
  lemma {:induction false} RegistryAllRegistered(members: seq<Member>)
    requires forall i :: 0 <= i < |members| ==> Registered(members[i]) && members[i].check.Some?
    ensures WellFormedMembers(members)
    ensures |Registry(members)| == |members|
    ensures forall i :: 0 <= i < |members| ==> Registry(members)[i] == members[i].check.value
  {
    if members != [] {
      var front := members[..|members| - 1];
      assert members == front + [members[|members| - 1]];
      RegistryAllRegistered(front);
    }
  }

  /** Each check method is registered, in definition order. */
  lemma CheckMembersRegistered()
    ensures WellFormedMembers(CheckMembers) && Registry(CheckMembers) == AllChecks
  {
    CheckMembersCallable();
    RegistryAllRegistered(CheckMembers);
  }

  /**
   * The class's registry is its six check methods: the attribute
   * `__check_method_prefix` carries the prefix but is not callable, and
   * `__checks` lacks the underscore that ends the prefix.
   */
  lemma RegistryOfClass()
    ensures WellFormedMembers(ClassMembers)
    ensures Registry(ClassMembers) == AllChecks
  {
    InstanceMembersUnregistered();
    LeadingMembersUnregistered();
    TrailingMembersUnregistered();
    CheckMembersRegistered();
    RegistryAppend(InstanceMembers, LeadingClassMembers);
    RegistryAppend(InstanceMembers + LeadingClassMembers, CheckMembers);
    RegistryAppend(InstanceMembers + LeadingClassMembers + CheckMembers, TrailingClassMembers);
  }
}
