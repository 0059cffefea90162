/**
 * Looking a chat model up by what a group member typed: its name (case-insensitively),
 * one of its aliases, or its model id.
 */
module ModelSelection {
  import opened Js
  import opened Schemas

  /** Whether `m` answers to `target`, which is already lowercased. */
  predicate Answers(m: Model, target: string) {
    ToLowerAscii(m.name) == target || target in m.aliases || m.model == target
  }

  /**
   * `models.find(...)` on the lowercased input: the first model whose lowercased name is
   * the input, whose aliases contain it, or whose id is it; `None` (the handlers' `null`) on a miss.
   */
  function FindModel(models: seq<Model>, nameOrAlias: string): (r: Option<Model>)
    ensures r.None? <==> forall k :: 0 <= k < |models| ==> !Answers(models[k], ToLowerAscii(nameOrAlias))
    ensures r.Some? ==> exists i :: 0 <= i < |models| && models[i] == r.value &&
                                    Answers(models[i], ToLowerAscii(nameOrAlias)) &&
                                    forall k :: 0 <= k < i ==> !Answers(models[k], ToLowerAscii(nameOrAlias))
  {
    var target := ToLowerAscii(nameOrAlias);
    Find(models, (m: Model) => Answers(m, target))
  }

  /** Every model can be selected by its own name, written in any letter case. */
  lemma SelectableByName(models: seq<Model>, i: nat, typed: string)
    requires i < |models| && ToLowerAscii(typed) == ToLowerAscii(models[i].name)
    ensures FindModel(models, typed).Some?
  {
    assert Answers(models[i], ToLowerAscii(typed));
  }

  /** The lookup does not depend on the letter case of what was typed. */
  lemma CaseInsensitive(models: seq<Model>, typed: string)
    ensures FindModel(models, typed) == FindModel(models, ToLowerAscii(typed))
  {
    ToLowerAsciiIdempotent(typed);
  }

  /** An alias containing an upper-case letter can never be matched, since the input is lowercased first. */
  lemma UpperCaseAliasUnreachable(m: Model, typed: string, alias: string)
    requires alias in m.aliases && exists k :: 0 <= k < |alias| && 'A' <= alias[k] <= 'Z'
    ensures ToLowerAscii(typed) != alias
  {
    var k :| 0 <= k < |alias| && 'A' <= alias[k] <= 'Z';
    assert |typed| == |alias| ==> !('A' <= ToLowerAscii(typed)[k] <= 'Z');
  }
}
