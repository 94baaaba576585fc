/** The part of the document the login and register pages read and write:
    the inputs and error lines by field id, the response banner, the login
    button and the inputs of the login form, and the alerts shown. */
module Forms {
  import opened Js
  import opened Browser

  /** A `#<id>-error` element: its text and its display. */
  datatype ErrorLine = ErrorLine(text: string, display: Display)

  /** What `#<id>` and `#<id>-error` find for one id: the input's class set
      and the error line; either may be missing from the page. */
  datatype Field = Field(input: Option<set<string>>, error: Option<ErrorLine>)

  /** `#response-message`: its text, display and `className`. */
  datatype Banner = Banner(text: string, display: Display, className: string)

  /** `#login-button`: whether it is disabled and its content. */
  datatype Button = Button(disabled: bool, content: string)

  /** The classes both pages put on an input that has an error. */
  const ERROR_CLASSES: set<string> :=
    {"bg-red-50", "border-red-500", "text-red-900", "placeholder-red-700",
     "focus:ring-red-500", "focus:border-red-500"}

  /** An input's classes after a page's `showFieldError`: that page's
      `neutral` classes out, the error ones in, everything else kept. */
  function Decorated(classes: set<string>, neutral: set<string>): (c: set<string>)
    ensures ERROR_CLASSES <= c
    ensures c !! neutral - ERROR_CLASSES
    ensures forall x :: x in classes && x !in neutral ==> x in c
    ensures forall x :: x in c && x !in ERROR_CLASSES ==> x in classes
  {
    (classes - neutral) + ERROR_CLASSES
  }

  /** An input's classes after a page's `clearFieldError`: the error classes
      out, that page's `neutral` ones in, everything else kept. */
  function Undecorated(classes: set<string>, neutral: set<string>): (c: set<string>)
    ensures neutral <= c
    ensures c !! ERROR_CLASSES - neutral
    ensures forall x :: x in classes && x !in ERROR_CLASSES ==> x in c
    ensures forall x :: x in c && x !in neutral ==> x in classes
  {
    (classes - ERROR_CLASSES) + neutral
  }

  /** One field after `clearFieldError(id)`: neutral input, empty and hidden
      error line. */
  function Unmarked(f: Field, neutral: set<string>): Field {
    Field(if f.input.Some? then Some(Undecorated(f.input.value, neutral)) else None,
          if f.error.Some? then Some(ErrorLine("", Hidden)) else None)
  }

  /** The fields after `clearFieldError(id)`: only `id` changes. */
  function WithoutFieldError(fs: map<string, Field>, id: string, neutral: set<string>): (r: map<string, Field>)
    ensures r.Keys == fs.Keys
    ensures id in fs ==> r[id] == Unmarked(fs[id], neutral)
    ensures forall k :: k in fs && k != id ==> r[k] == fs[k]
  {
    if id in fs then fs[id := Unmarked(fs[id], neutral)] else fs
  }

  /** The fields after `forEach(clearFieldError)` over `ids`. */
  function ClearAll(fs: map<string, Field>, ids: seq<string>, neutral: set<string>): (r: map<string, Field>)
    ensures r.Keys == fs.Keys
    decreases |ids|
  {
    if ids == [] then fs else WithoutFieldError(ClearAll(fs, ids[..|ids| - 1], neutral), ids[|ids| - 1], neutral)
  }

  /** Clearing a list of fields resets exactly the listed ones, however often
      an id is repeated, and leaves every other field as it was. */
  lemma {:induction false} ClearAllAt(fs: map<string, Field>, ids: seq<string>, neutral: set<string>, k: string)
    requires k in fs
    ensures ClearAll(fs, ids, neutral)[k] == if k in ids then Unmarked(fs[k], neutral) else fs[k]
    decreases |ids|
  {
    if ids != [] {
      var prefix := ids[..|ids| - 1];
      ClearAllAt(fs, prefix, neutral, k);
      assert ids == prefix + [ids[|ids| - 1]];
      if k == ids[|ids| - 1] && k in prefix {
        var f := fs[k];
        if f.input.Some? {
          assert Undecorated(Undecorated(f.input.value, neutral), neutral) == Undecorated(f.input.value, neutral);
        }
      }
    }
  }

  class Document {
    /** Field id to what the page has for it; an id missing here has
        neither an input nor an error line. */
    var fields: map<string, Field>
    var banner: Option<Banner>
    /** The `innerHTML` of `#error-messages`, when the page has one. */
    var errorMessages: Option<string>
    var loginButton: Option<Button>
    /** Whether the page has `#login-form`, and the `disabled` flag of each
        of its inputs in document order. */
    const hasLoginForm: bool
    const loginInputs: array<bool>
    /** The messages passed to `alert`, oldest first. */
    var alerts: seq<string>

    constructor(fields: map<string, Field>, banner: Option<Banner>, errorMessages: Option<string>,
                loginButton: Option<Button>, hasLoginForm: bool, inputCount: nat)
      ensures this.fields == fields && this.banner == banner && this.errorMessages == errorMessages
      ensures this.loginButton == loginButton && this.hasLoginForm == hasLoginForm
      ensures fresh(loginInputs) && loginInputs.Length == inputCount
      ensures alerts == []
    {
      this.fields := fields;
      this.banner := banner;
      this.errorMessages := errorMessages;
      this.loginButton := loginButton;
      this.hasLoginForm := hasLoginForm;
      loginInputs := new bool[inputCount];
      alerts := [];
    }
  }

  /** An entry of a server error payload names a field and a message
      (`field && message`, on an entry that is not `null`). */
  predicate IsComplete(entry: Json) {
    Truthy(Prop(entry, "field")) && Truthy(Prop(entry, "message"))
  }

  /** The id an entry names, as `#${field}` spells it. */
  function FieldId(entry: Json): string {
    JsString(Prop(entry, "field"))
  }

  /** The position of the first `null` or `undefined` entry, where
      `forEach` throws a TypeError reading its `field`; the length when
      there is none. */
  function FirstNullish(entries: seq<Json>): (k: nat)
    ensures k <= |entries|
    ensures forall j :: 0 <= j < k ==> !IsNullish(entries[j])
    ensures k < |entries| ==> IsNullish(entries[k])
    decreases |entries|
  {
    if entries == [] || IsNullish(entries[0]) then 0
    else 1 + FirstNullish(entries[1..])
  }

  /** The message of the last complete entry that names `id`, if any. */
  function LastMessage(entries: seq<Json>, id: string): (m: Option<Json>)
    ensures m.None? <==> forall j :: 0 <= j < |entries| ==> !(IsComplete(entries[j]) && FieldId(entries[j]) == id)
    ensures m.Some? ==> exists j :: 0 <= j < |entries| && IsComplete(entries[j]) && FieldId(entries[j]) == id
                                    && m.value == Prop(entries[j], "message")
                                    && forall j' :: j < j' < |entries| ==> !(IsComplete(entries[j']) && FieldId(entries[j']) == id)
    decreases |entries|
  {
    if entries == [] then None
    else
      var last := entries[|entries| - 1];
      if IsComplete(last) && FieldId(last) == id then Some(Prop(last, "message"))
      else
        var prefix := entries[..|entries| - 1];
        assert forall j :: 0 <= j < |prefix| ==> prefix[j] == entries[j];
        LastMessage(prefix, id)
  }
}
