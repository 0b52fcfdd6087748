/**
  The model families served by the Model-as-a-Service endpoints, and the resolver that maps a
  model name to its family through two closed allow-lists (`VertexMaaSModelFamily._missing_`).
 */
module Families {
  import opened Wrappers
  import opened Errors
  import opened Strings

  datatype Family = LLAMA | MISTRAL

  /** The Llama model names served, lower-cased. */
  const LlamaModels: set<string> := {"meta/llama3-405b-instruct-maas"}

  /** The Mistral model names served, lower-cased, each with its `@` version suffix. */
  const MistralModels: set<string> := {"mistral-nemo@2407", "mistral-large@2407"}

  /**
    The family of a model name: the name is lower-cased and then looked up by exact membership,
    Llama first; a name in neither allow-list is rejected with the lower-cased name in the error.
   */
  function ResolveFamily(value: string): (r: Result<Family, Error>)
    ensures r == Ok(LLAMA) <==> Lower(value) in LlamaModels
    ensures r == Ok(MISTRAL) <==> Lower(value) in MistralModels
    ensures r.Err? <==> Lower(value) !in LlamaModels + MistralModels
    ensures r.Err? ==> r.error == UnsupportedModel(Lower(value))
  {
    var name := Lower(value);
    if name in LlamaModels then Ok(LLAMA)
    else if name in MistralModels then Ok(MISTRAL)
    else Err(UnsupportedModel(name))
  }

  /** Differing only in the case of letters never changes the family, nor the error. */
  lemma ResolveIgnoresCase(s: string, t: string)
    requires EqualIgnoringCase(s, t)
    ensures ResolveFamily(s) == ResolveFamily(t)
  {
    LowerIgnoresCase(s, t);
  }

  /** The Llama name resolves to LLAMA. */
  lemma ResolveLlama()
    ensures ResolveFamily("meta/llama3-405b-instruct-maas") == Ok(LLAMA)
  {
    LowerFixes("meta/llama3-405b-instruct-maas");
  }

  /** Both Mistral names resolve to MISTRAL. */
  lemma ResolveMistralNames()
    ensures ResolveFamily("mistral-nemo@2407") == Ok(MISTRAL)
    ensures ResolveFamily("mistral-large@2407") == Ok(MISTRAL)
  {
    LowerFixes("mistral-nemo@2407");
    LowerFixes("mistral-large@2407");
  }

  /** An upper-case spelling of an allow-listed name resolves as the name does. */
  lemma ResolveUpperCase()
    ensures ResolveFamily("MISTRAL-NEMO@2407") == Ok(MISTRAL)
  {
    var upper, lower := "MISTRAL-NEMO@2407", "mistral-nemo@2407";
    assert Lower(upper) == lower by {
      assert forall i | 0 <= i < |upper| :: LowerChar(upper[i]) == lower[i];
    }
  }

  lemma ResolveMixedCase()
    ensures ResolveFamily("Mistral-Large@2407") == Ok(MISTRAL)
  {
    var mixed, lower := "Mistral-Large@2407", "mistral-large@2407";
    assert Lower(mixed) == lower by {
      assert forall i | 0 <= i < |mixed| :: LowerChar(mixed[i]) == lower[i];
    }
  }

  /** A name outside both lists, such as a Mistral name without its version, is rejected. */
  lemma ResolveRejectsUnlisted()
    ensures ResolveFamily("mistral-large") == Err(UnsupportedModel("mistral-large"))
  {
    LowerFixes("mistral-large");
  }

  /** A string whose characters `LowerChar` keeps is its own lower-case form. */
  lemma LowerFixes(s: string)
    requires forall i | 0 <= i < |s| :: LowerChar(s[i]) == s[i]
    ensures Lower(s) == s
  {
  }

  /** The member values that `auto()` gives the two members of a `(str, Enum)` class. */
  const MemberValues: map<string, Family> := map["1" := LLAMA, "2" := MISTRAL]

  /**
    `VertexMaaSModelFamily(value)` as Python evaluates it: the Enum call first looks `value` up
    among the members' own values, and only when that fails does it call `_missing_`.
   */
  function FamilyFromValue(value: string): (r: Result<Family, Error>)
    ensures value in MemberValues ==> r == Ok(MemberValues[value])
    ensures value !in MemberValues ==> r == ResolveFamily(value)
  {
    if value in MemberValues then Ok(MemberValues[value]) else ResolveFamily(value)
  }

  /** The Enum call accepts "1" and "2", which neither allow-list contains. */
  lemma MemberValuesBypassAllowLists()
    ensures FamilyFromValue("1") == Ok(LLAMA) && ResolveFamily("1").Err?
    ensures FamilyFromValue("2") == Ok(MISTRAL) && ResolveFamily("2").Err?
  {
    LowerFixes("1");
    LowerFixes("2");
  }
}
