/**
 The application settings: the Groq API key read from the environment, and the
 validator that refuses a blank key before anything is sent to the service.
 */
module Settings {
  import opened Text
  import opened Wrappers

  /** The one required setting. */
  datatype Settings = Settings(groqApiKey: string)

  /** Why loading the settings failed, and with which field. */
  datatype SettingsError = FieldMissing(field: string) | FieldInvalid(message: string)

  const GroqApiKeyField: string := "GROQ_API_KEY"

  /** `value` has at least one character that is not whitespace. */
  predicate HasText(value: string) {
    exists i :: 0 <= i < |value| && !IsSpace(value[i])
  }

  /**
   `Settings.check_not_empty`: a value that is empty or whitespace only is
   refused with `<field> cannot be empty.`; any other value is accepted as it is,
   surrounding whitespace included.
   */
  function CheckNotEmpty(value: string, fieldName: string): (r: Result<string, string>)
    ensures r.Success? <==> HasText(value)
    ensures r.Success? ==> r.value == value
    ensures r.Failure? ==> r.error == fieldName + " cannot be empty."
  {
    if value == [] || Strip(value) == "" then Failure(fieldName + " cannot be empty.")
    else Success(value)
  }

  /** The empty string is refused. */
  lemma RejectsEmpty(fieldName: string)
    ensures CheckNotEmpty("", fieldName) == Failure(fieldName + " cannot be empty.")
  {
  }

  /** A string of whitespace only is refused, whatever its length. */
  lemma RejectsBlank(value: string, fieldName: string)
    requires AllSpace(value)
    ensures CheckNotEmpty(value, fieldName).Failure?
  {
  }

  /** An accepted value passes validation again unchanged. */
  lemma RevalidationAccepts(value: string, fieldName: string)
    requires CheckNotEmpty(value, fieldName).Success?
    ensures CheckNotEmpty(CheckNotEmpty(value, fieldName).value, fieldName) == CheckNotEmpty(value, fieldName)
  {
  }

  /** Lower-casing of one character, as far as ASCII letters go. */
  function LowerChar(ch: char): char {
    if 'A' <= ch <= 'Z' then (ch as int + 32) as char else ch
  }

  /** A variable name folded to lower case, character by character. */
  function Lower(name: string): (folded: string)
    ensures |folded| == |name|
    ensures forall i :: 0 <= i < |name| ==> folded[i] == LowerChar(name[i])
  {
    seq(|name|, i requires 0 <= i < |name| => LowerChar(name[i]))
  }

  /** The name the key is looked up under once names are folded. */
  const GroqApiKeyEnvName: string := "groq_api_key"

  lemma FieldNameFolds()
    ensures Lower(GroqApiKeyField) == GroqApiKeyEnvName
  {
    var folded := Lower(GroqApiKeyField);
    assert folded[0] == 'g' && folded[1] == 'r' && folded[2] == 'o' && folded[3] == 'q' && folded[4] == '_';
    assert folded[5] == 'a' && folded[6] == 'p' && folded[7] == 'i' && folded[8] == '_';
    assert folded[9] == 'k' && folded[10] == 'e' && folded[11] == 'y';
  }

  /**
   The environment as the settings source reads it: every name folded to lower
   case, a later variable replacing an earlier one whose name folds the same.
   */
  function FoldedEnv(env: seq<(string, string)>): map<string, string> {
    if env == [] then map[]
    else FoldedEnv(env[..|env| - 1])[Lower(env[|env| - 1].0) := env[|env| - 1].1]
  }

  /** Variable `i` of the environment is named `name`, up to case. */
  predicate Names(env: seq<(string, string)>, name: string, i: int) {
    0 <= i < |env| && Lower(env[i].0) == name
  }

  /** Variable `i` is the last one named `name`, up to case. */
  predicate LastNames(env: seq<(string, string)>, name: string, i: int) {
    Names(env, name, i) && forall j :: i < j < |env| ==> !Names(env, name, j)
  }

  /** A folded name is found exactly when some variable has it, and its value is the last such variable's. */
  lemma {:induction false} FoldedEnvLookup(env: seq<(string, string)>, name: string)
    ensures name in FoldedEnv(env) <==> exists i :: Names(env, name, i)
    ensures forall i :: LastNames(env, name, i) ==> name in FoldedEnv(env) && FoldedEnv(env)[name] == env[i].1
    decreases |env|
  {
    if env != [] {
      var n := |env| - 1;
      var init := env[..n];
      FoldedEnvLookup(init, name);
      if Lower(env[n].0) == name {
        assert Names(env, name, n);
        forall i | LastNames(env, name, i) ensures i == n {
        }
      } else {
        forall i | Names(env, name, i) ensures Names(init, name, i) {
        }
        forall i | Names(init, name, i) ensures Names(env, name, i) {
        }
        forall i | LastNames(env, name, i) ensures LastNames(init, name, i) {
        }
      }
    }
  }

  /** When some variable has the name, one of them is the last: the two cases of `LoadSettings` cover every environment. */
  lemma {:induction false} LastNamedExists(env: seq<(string, string)>, name: string, i: int)
    requires Names(env, name, i)
    ensures exists k :: LastNames(env, name, k)
    decreases |env| - i
  {
    if !LastNames(env, name, i) {
      var j :| i < j < |env| && Names(env, name, j);
      LastNamedExists(env, name, j);
    }
  }

  /**
   `Settings()` over the process environment: the variable whose name is
   `GROQ_API_KEY` up to case must be present and pass the validator; when
   several names fold the same, the last one counts. Process variables with
   other names are ignored (the `.env` file, which refuses them, is not modelled).
   */
  function LoadSettings(env: seq<(string, string)>): (r: Result<Settings, SettingsError>)
    ensures (forall i :: !Names(env, GroqApiKeyEnvName, i)) ==> r == Failure(FieldMissing(GroqApiKeyField))
    ensures forall i :: LastNames(env, GroqApiKeyEnvName, i) ==>
      && (r.Success? <==> HasText(env[i].1))
      && (r.Success? ==> r.value.groqApiKey == env[i].1)
      && (r.Failure? ==> r.error == FieldInvalid(GroqApiKeyField + " cannot be empty."))
  {
    FoldedEnvLookup(env, GroqApiKeyEnvName);
    var folded := FoldedEnv(env);
    if GroqApiKeyEnvName !in folded then Failure(FieldMissing(GroqApiKeyField))
    else
      match CheckNotEmpty(folded[GroqApiKeyEnvName], GroqApiKeyField)
      case Success(key) => Success(Settings(key))
      case Failure(message) => Failure(FieldInvalid(message))
  }

  /** Every spelling of the name that folds to `groq_api_key` loads the same settings. */
  lemma NameCaseIgnored(name: string, value: string)
    requires Lower(name) == GroqApiKeyEnvName
    ensures LoadSettings([(name, value)]) == LoadSettings([(GroqApiKeyField, value)])
  {
    FieldNameFolds();
    assert LastNames([(name, value)], GroqApiKeyEnvName, 0);
    assert LastNames([(GroqApiKeyField, value)], GroqApiKeyEnvName, 0);
  }
}
