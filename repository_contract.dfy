/**
 * The construction-time check that an injected repository offers the methods a
 * use case calls (src/shared/contracts/assertRepositoryContract.js).
 * A dependency is `None` when it is null, undefined or not an object (a function
 * included), and `Some(fs)` for an object whose function-valued properties are `fs`.
 */
module Contracts {
  import opened Wrappers
  import opened Errors

  type Dependency = Option<set<string>>

  /** `methods.filter(m => typeof dependency[m] !== "function")` */
  function MissingMethods(fs: set<string>, methods: seq<string>): (r: seq<string>)
    ensures |r| <= |methods|
    ensures forall m :: m in r <==> m in methods && m !in fs
  {
    if methods == [] then []
    else (if methods[0] in fs then [] else [methods[0]]) + MissingMethods(fs, methods[1..])
  }

  /**
   * The filter distributes over concatenation, so the missing names come out in
   * the order in which they were asked for.
   */
  lemma {:induction false} MissingMethodsAppend(fs: set<string>, a: seq<string>, b: seq<string>)
    ensures MissingMethods(fs, a + b) == MissingMethods(fs, a) + MissingMethods(fs, b)
  {
    if a == [] {
      assert a + b == b;
    } else {
      assert (a + b)[0] == a[0] && (a + b)[1..] == a[1..] + b;
      MissingMethodsAppend(fs, a[1..], b);
    }
  }

  /** `list.join(", ")` */
  function JoinNames(names: seq<string>): string {
    if names == [] then ""
    else if |names| == 1 then names[0]
    else names[0] + ", " + JoinNames(names[1..])
  }

  function NotAnObjectMessage(dependencyName: string): string {
    "Dependência inválida: '" + dependencyName + "' deve ser um objeto com métodos esperados."
  }

  function MissingMethodsMessage(dependencyName: string, missing: seq<string>): string {
    "Contrato inválido em '" + dependencyName + "'. Métodos ausentes: " + JoinNames(missing) + "."
  }

  /**
   * `assertRepositoryContract({ dependencyName, dependency, methods })`: a dependency
   * that is not an object fails first; an object fails when any asked-for method is
   * not a function, naming exactly those; otherwise the check passes.
   */
  function AssertRepositoryContract(dependencyName: string, dependency: Dependency, methods: seq<string>): (r: Outcome)
    ensures r.Fail? ==> r.error.statusCode == 500 && r.error.code == DEPENDENCY_CONTRACT_ERROR
    ensures dependency.None? ==> r == Fail(Raise(NotAnObjectMessage(dependencyName), 500, DEPENDENCY_CONTRACT_ERROR))
    ensures dependency.Some? ==> (r.Pass? <==> forall m :: m in methods ==> m in dependency.value)
    ensures dependency.Some? && r.Fail? ==>
              r.error.message == MissingMethodsMessage(dependencyName, MissingMethods(dependency.value, methods))
  {
    if dependency.None? then
      Fail(Raise(NotAnObjectMessage(dependencyName), 500, DEPENDENCY_CONTRACT_ERROR))
    else
      var missing := MissingMethods(dependency.value, methods);
      if |missing| > 0 then
        assert missing[0] in missing;
        Fail(Raise(MissingMethodsMessage(dependencyName, missing), 500, DEPENDENCY_CONTRACT_ERROR))
      else
        Pass
  }

  /** Every missing-methods failure reads "Contrato inválido ...", the text the use cases' callers match on. */
  lemma MissingMethodsMessagePrefix(dependencyName: string, missing: seq<string>)
    ensures MissingMethodsMessage(dependencyName, missing)[..17] == "Contrato inválido"
  {
  }
}
