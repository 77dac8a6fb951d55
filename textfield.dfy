/**
 * The validation affordances of the text field: which CSS classes the input
 * gets, which validation icon and which clear button the end-control group
 * shows, and whether warning and error text is rendered. They are functions of
 * the `meta` flags of the form binding, `readOnly`, the `input` binding's value
 * and the value the DOM input holds, all passed in.
 */
module TextFieldValidation {

  import opened Wrappers

  /**
   * The form library's field state. An empty `error` or `warning` stands for
   * an absent (falsy) message.
   */
  datatype Meta = Meta(touched: bool, active: bool, valid: bool, error: string, warning: string, asyncValidating: bool)

  /** The props the selection reads; `input` is the value of the `input` binding when that binding is given. */
  datatype FieldProps = FieldProps(
    inputStyle: Option<string>,
    rounded: bool,
    noBorder: bool,
    marginBottom0: bool,
    readOnly: bool,
    meta: Option<Meta>,
    input: Option<string>)

  /**
   * The props under which `render` does not throw: destructuring `meta` when
   * `input` is given needs a `meta`, and an active field reads `input.value`.
   */
  predicate RenderDefined(p: FieldProps)
  {
    && (p.input.Some? ==> p.meta.Some?)
    && (p.meta.Some? && p.meta.value.active ==> p.input.Some?)
  }

  // ---------------------------------------------------------------------------
  // Preset styles: `inputStyle.split(/\s+/)`

  /** A character of the regular-expression class `\s`. */
  predicate IsJsSpace(c: char): (r: bool)
    ensures r ==> c as int <= 0xFFFF
    ensures r ==> !('0' <= c <= '9') && !('a' <= c <= 'z') && !('A' <= c <= 'Z')
  {
    || c == ' ' || c == '\t' || c == '\n' || c == '\r' || c == '\U{000B}' || c == '\U{000C}'
    || c == '\U{00A0}' || c == '\U{1680}' || ('\U{2000}' <= c <= '\U{200A}')
    || c == '\U{2028}' || c == '\U{2029}' || c == '\U{202F}' || c == '\U{205F}'
    || c == '\U{3000}' || c == '\U{FEFF}'
  }

  /** `/\s/.test(s)`. */
  predicate HasSpace(s: string)
  {
    exists i :: 0 <= i < |s| && IsJsSpace(s[i])
  }

  /**
   * `s.split(/\s+/)`: the pieces between maximal runs of whitespace, with an
   * empty first (last) piece when `s` starts (ends) with whitespace.
   */
  function SplitOnSpaces(s: string): (tokens: seq<string>)
    ensures |tokens| >= 1
  {
    if s == [] then [""]
    else
      var rest := SplitOnSpaces(s[1..]);
      if !IsJsSpace(s[0]) then [[s[0]] + rest[0]] + rest[1..]
      else if |s| > 1 && IsJsSpace(s[1]) then rest
      else [""] + rest
  }

  function Concat(tokens: seq<string>): (r: string)
  {
    if tokens == [] then "" else tokens[0] + Concat(tokens[1..])
  }

  /** `s` without its whitespace. */
  function RemoveSpaces(s: string): (r: string)
  {
    if s == [] then "" else (if IsJsSpace(s[0]) then "" else [s[0]]) + RemoveSpaces(s[1..])
  }

  predicate NoSpace(t: string)
  {
    forall i :: 0 <= i < |t| ==> !IsJsSpace(t[i])
  }

  /** The pieces hold no whitespace, and together they are `s` with the whitespace taken out. */
  lemma {:induction false} SplitOnSpacesPieces(s: string)
    ensures forall k :: 0 <= k < |SplitOnSpaces(s)| ==> NoSpace(SplitOnSpaces(s)[k])
    ensures Concat(SplitOnSpaces(s)) == RemoveSpaces(s)
  {
    if s != [] {
      var rest := SplitOnSpaces(s[1..]);
      SplitOnSpacesPieces(s[1..]);
      assert rest == [rest[0]] + rest[1..];
      if !IsJsSpace(s[0]) {
        var tokens := [[s[0]] + rest[0]] + rest[1..];
        assert tokens[1..] == rest[1..];
        assert Concat(rest) == rest[0] + Concat(rest[1..]);
        forall k | 0 <= k < |tokens|
          ensures NoSpace(tokens[k])
        {
          if k == 0 {
            assert NoSpace(rest[0]);
          } else {
            assert tokens[k] == rest[k];
          }
        }
      } else if |s| > 1 && IsJsSpace(s[1]) {
        assert RemoveSpaces(s) == RemoveSpaces(s[1..]);
      } else {
        var tokens := [""] + rest;
        assert tokens[1..] == rest;
        forall k | 0 <= k < |tokens|
          ensures NoSpace(tokens[k])
        {
          if k > 0 {
            assert tokens[k] == rest[k - 1];
          }
        }
      }
    }
  }

  /** `s` with every maximal run of whitespace replaced by one space. */
  function CollapseSpaces(s: string): (r: string)
  {
    if s == [] then ""
    else if !IsJsSpace(s[0]) then [s[0]] + CollapseSpaces(s[1..])
    else if |s| > 1 && IsJsSpace(s[1]) then CollapseSpaces(s[1..])
    else " " + CollapseSpaces(s[1..])
  }

  /** The pieces joined with single spaces (`tokens.join(' ')`). */
  function JoinWithSpaces(tokens: seq<string>): (r: string)
  {
    if tokens == [] then ""
    else if |tokens| == 1 then tokens[0]
    else tokens[0] + " " + JoinWithSpaces(tokens[1..])
  }

  /** Prefixing the first piece prefixes the joined string. */
  lemma JoinPrefix(c: char, tokens: seq<string>)
    requires |tokens| >= 1
    ensures JoinWithSpaces([[c] + tokens[0]] + tokens[1..]) == [c] + JoinWithSpaces(tokens)
  {
    var prefixed := [[c] + tokens[0]] + tokens[1..];
    if |tokens| > 1 {
      assert prefixed[1..] == tokens[1..];
    }
  }

  /**
   * Joining the pieces with single spaces gives `s` with each whitespace run
   * collapsed to one space. As no piece holds whitespace, this fixes the pieces.
   */
  lemma {:induction false} SplitOnSpacesJoin(s: string)
    ensures JoinWithSpaces(SplitOnSpaces(s)) == CollapseSpaces(s)
  {
    if s != [] {
      var rest := SplitOnSpaces(s[1..]);
      SplitOnSpacesJoin(s[1..]);
      if !IsJsSpace(s[0]) {
        JoinPrefix(s[0], rest);
      } else if !(|s| > 1 && IsJsSpace(s[1])) {
        assert ([""] + rest)[1..] == rest;
      }
    }
  }

  /** Only the first and the last piece of the split can be empty. */
  lemma {:induction false} SplitOnSpacesInnerPieces(s: string)
    ensures s != [] && !IsJsSpace(s[0]) ==> SplitOnSpaces(s)[0] != ""
    ensures forall k :: 0 < k < |SplitOnSpaces(s)| - 1 ==> SplitOnSpaces(s)[k] != ""
  {
    if s != [] {
      var rest := SplitOnSpaces(s[1..]);
      SplitOnSpacesInnerPieces(s[1..]);
      if !IsJsSpace(s[0]) {
        var tokens := [[s[0]] + rest[0]] + rest[1..];
        forall k | 0 < k < |tokens| - 1
          ensures tokens[k] != ""
        {
          assert tokens[k] == rest[k];
        }
      } else if !(|s| > 1 && IsJsSpace(s[1])) {
        var tokens := [""] + rest;
        forall k | 0 < k < |tokens| - 1
          ensures tokens[k] != ""
        {
          assert tokens[k] == rest[k - 1];
          if k == 1 {
            assert s[1..][0] == s[1];
          }
        }
      }
    }
  }

  /** A string without whitespace splits into itself alone. */
  lemma {:induction false} SplitWithoutSpaces(s: string)
    requires !HasSpace(s)
    ensures SplitOnSpaces(s) == [s]
  {
    if s != [] {
      assert !IsJsSpace(s[0]);
      assert !HasSpace(s[1..]) by {
        forall i | 0 <= i < |s[1..]| ensures !IsJsSpace(s[1..][i]) {
          assert s[1..][i] == s[i + 1];
        }
      }
      SplitWithoutSpaces(s[1..]);
      assert [s[0]] + s[1..] == s;
    }
  }

  /** `/\s/.test(s)` holds exactly when `s.split(/\s+/)` yields more than one piece. */
  lemma SpaceIffSeveralPieces(s: string)
    ensures HasSpace(s) <==> |SplitOnSpaces(s)| > 1
  {
    if HasSpace(s) {
      SplitAtSpace(s);
    } else {
      SplitWithoutSpaces(s);
    }
  }

  /** A string with whitespace splits into at least two pieces. */
  lemma {:induction false} SplitAtSpace(s: string)
    requires HasSpace(s)
    ensures |SplitOnSpaces(s)| >= 2
  {
    var rest := SplitOnSpaces(s[1..]);
    if !IsJsSpace(s[0]) || (|s| > 1 && IsJsSpace(s[1])) {
      var i :| 0 <= i < |s| && IsJsSpace(s[i]);
      if !IsJsSpace(s[0]) {
        assert s[1..][i - 1] == s[i];
      } else {
        assert s[1..][0] == s[1];
      }
      SplitAtSpace(s[1..]);
    }
  }

  /** The preset style names `getInputStyle` applies: none unless the string contains whitespace. */
  function PresetTokens(inputStyle: Option<string>): (tokens: seq<string>)
  {
    if inputStyle.Some? && HasSpace(inputStyle.value) then SplitOnSpaces(inputStyle.value) else []
  }

  // ---------------------------------------------------------------------------
  // Input classes

  /** The CSS-module classes the input can carry; `Preset(name)` is the class of a preset style name. */
  datatype InputClass = InputBase | Preset(name: string) | Rounded | NoBorder | MarginBottom0 | HasFeedback | FieldError | FieldValid

  /** The classes of the `rounded`, `noBorder` and `marginBottom0` props. */
  function FlagClasses(p: FieldProps): (r: seq<InputClass>)
    ensures forall j :: 0 <= j < |r| ==> r[j].Rounded? || r[j].NoBorder? || r[j].MarginBottom0?
    ensures Rounded in r <==> p.rounded
    ensures NoBorder in r <==> p.noBorder
    ensures MarginBottom0 in r <==> p.marginBottom0
    ensures forall i, j :: 0 <= i < j < |r| ==> r[i] != r[j]
  {
    (if p.rounded then [Rounded] else [])
      + (if p.noBorder then [NoBorder] else [])
      + (if p.marginBottom0 then [MarginBottom0] else [])
  }

  /** The validation classes, chosen only when `meta` is given. */
  function ValidationClasses(meta: Option<Meta>): (r: seq<InputClass>)
    ensures forall j :: 0 <= j < |r| ==> r[j].HasFeedback? || r[j].FieldError? || r[j].FieldValid?
    ensures HasFeedback in r <==> meta.Some? && (meta.value.error != "" || meta.value.warning != "")
    ensures FieldError in r <==> meta.Some? && meta.value.touched && meta.value.error != ""
    ensures FieldValid in r <==> meta.Some? && meta.value.touched && !meta.value.asyncValidating && meta.value.valid
    ensures forall i, j :: 0 <= i < j < |r| ==> r[i] != r[j]
  {
    if meta.None? then []
    else
      var m := meta.value;
      (if m.error != "" || m.warning != "" then [HasFeedback] else [])
        + (if m.touched && m.error != "" then [FieldError] else [])
        + (if m.touched && !m.asyncValidating && m.valid then [FieldValid] else [])
  }

  /** The preset part of `getInputStyle`: the class of each preset style name, in order. */
  method PresetClasses(inputStyle: Option<string>) returns (csslist: seq<InputClass>)
    ensures |csslist| == |PresetTokens(inputStyle)|
    ensures forall j :: 0 <= j < |csslist| ==> csslist[j] == Preset(PresetTokens(inputStyle)[j])
  {
    csslist := [];
    if inputStyle.Some? && HasSpace(inputStyle.value) {
      var tempClasses := SplitOnSpaces(inputStyle.value);
      for i := 0 to |tempClasses|
        invariant |csslist| == i
        invariant forall j :: 0 <= j < i ==> csslist[j] == Preset(tempClasses[j])
      {
        csslist := csslist + [Preset(tempClasses[i])];
      }
    }
  }

  /**
   * `getInputStyle`: the base class, then one class per preset style name (only
   * when `inputStyle` contains whitespace), then the flag classes and the
   * validation classes.
   */
  method GetInputStyle(p: FieldProps) returns (classes: seq<InputClass>)
    ensures var tokens := PresetTokens(p.inputStyle);
            && |classes| >= 1 + |tokens| && classes[0] == InputBase
            && (forall i :: 0 <= i < |tokens| ==> classes[1 + i] == Preset(tokens[i]))
            && (forall i :: 1 + |tokens| <= i < |classes| ==> !classes[i].Preset? && classes[i] != InputBase)
            && (forall i, j :: 1 + |tokens| <= i < j < |classes| ==> classes[i] != classes[j])
    ensures Rounded in classes <==> p.rounded
    ensures NoBorder in classes <==> p.noBorder
    ensures MarginBottom0 in classes <==> p.marginBottom0
    ensures HasFeedback in classes <==> p.meta.Some? && (p.meta.value.error != "" || p.meta.value.warning != "")
    ensures FieldError in classes <==> p.meta.Some? && p.meta.value.touched && p.meta.value.error != ""
    ensures FieldValid in classes <==> p.meta.Some? && p.meta.value.touched && !p.meta.value.asyncValidating && p.meta.value.valid
  {
    var tokens := PresetTokens(p.inputStyle);
    var csslist := PresetClasses(p.inputStyle);
    var flags := FlagClasses(p);
    var validationClasses := ValidationClasses(p.meta);
    classes := [InputBase] + csslist + flags + validationClasses;
    TailClass(classes, csslist, flags, validationClasses, Rounded);
    TailClass(classes, csslist, flags, validationClasses, NoBorder);
    TailClass(classes, csslist, flags, validationClasses, MarginBottom0);
    TailClass(classes, csslist, flags, validationClasses, HasFeedback);
    TailClass(classes, csslist, flags, validationClasses, FieldError);
    TailClass(classes, csslist, flags, validationClasses, FieldValid);
    ClassLayout(classes, tokens, csslist, flags, validationClasses);
  }

  /** The layout of the class list: the base, the presets in order, then only flag and validation classes. */
  lemma ClassLayout(classes: seq<InputClass>, tokens: seq<string>, presets: seq<InputClass>, flags: seq<InputClass>, validation: seq<InputClass>)
    requires classes == [InputBase] + presets + flags + validation
    requires |presets| == |tokens|
    requires forall j :: 0 <= j < |presets| ==> presets[j] == Preset(tokens[j])
    requires forall j :: 0 <= j < |flags| ==> flags[j].Rounded? || flags[j].NoBorder? || flags[j].MarginBottom0?
    requires forall j :: 0 <= j < |validation| ==> validation[j].HasFeedback? || validation[j].FieldError? || validation[j].FieldValid?
    requires forall i, j :: 0 <= i < j < |flags| ==> flags[i] != flags[j]
    requires forall i, j :: 0 <= i < j < |validation| ==> validation[i] != validation[j]
    ensures |classes| >= 1 + |tokens| && classes[0] == InputBase
    ensures forall i :: 0 <= i < |tokens| ==> classes[1 + i] == Preset(tokens[i])
    ensures forall i :: 1 + |tokens| <= i < |classes| ==> !classes[i].Preset? && classes[i] != InputBase
    ensures forall i, j :: 1 + |tokens| <= i < j < |classes| ==> classes[i] != classes[j]
  {
    forall i | 0 <= i < |tokens|
      ensures classes[1 + i] == Preset(tokens[i])
    {
      assert classes[1 + i] == presets[i];
    }
    forall i | 1 + |tokens| <= i < |classes|
      ensures !classes[i].Preset? && classes[i] != InputBase
    {
      var k := i - 1 - |tokens|;
      if k < |flags| {
        assert classes[i] == flags[k];
      } else {
        assert classes[i] == validation[k - |flags|];
      }
    }
    var tail := flags + validation;
    assert classes[1 + |tokens|..] == tail;
    forall i, j | 1 + |tokens| <= i < j < |classes|
      ensures classes[i] != classes[j]
    {
      var a, b := i - 1 - |tokens|, j - 1 - |tokens|;
      assert classes[i] == tail[a] && classes[j] == tail[b];
      if b < |flags| {
        assert tail[a] == flags[a] && tail[b] == flags[b];
      } else if a >= |flags| {
        assert tail[a] == validation[a - |flags|] && tail[b] == validation[b - |flags|];
      } else {
        assert tail[a] == flags[a] && tail[b] == validation[b - |flags|];
      }
    }
  }

  /** A class that is neither the base nor a preset is in the class list exactly when the flags or the validation classes hold it. */
  lemma TailClass(classes: seq<InputClass>, presets: seq<InputClass>, flags: seq<InputClass>, validation: seq<InputClass>, c: InputClass)
    requires classes == [InputBase] + presets + flags + validation
    requires forall j :: 0 <= j < |presets| ==> presets[j].Preset?
    requires !c.Preset? && c != InputBase
    ensures c in classes <==> c in flags || c in validation
  {
    if c in classes {
      var i :| 0 <= i < |classes| && classes[i] == c;
      assert forall j :: 1 <= j <= |presets| ==> classes[j] == presets[j - 1];
      assert i > |presets|;
      var k := i - 1 - |presets|;
      if k < |flags| {
        assert classes[i] == flags[k];
      } else {
        assert classes[i] == validation[k - |flags|];
      }
    }
    if c in flags {
      var k :| 0 <= k < |flags| && flags[k] == c;
      assert classes[1 + |presets| + k] == c;
    }
    if c in validation {
      var k :| 0 <= k < |validation| && validation[k] == c;
      assert classes[1 + |presets| + |flags| + k] == c;
    }
  }

  // ---------------------------------------------------------------------------
  // Validation icon and clear button

  datatype ValidationIcon = NoIcon | Spinner | ValidIcon | ErrorIcon

  /** The clear button: none, the one shown with the error icon (clicked), or the one of an active field (pressed). */
  datatype ClearButton = NoClear | ClearOnClick | ClearOnMouseDown

  datatype Affordances = Affordances(icon: ValidationIcon, clear: ClearButton)

  /**
   * The choice `render` makes by reassigning `validation` and `clearField`:
   * the spinner while validating asynchronously and not active, the check or
   * the error icon for a touched, inactive field that is not validating, a
   * clear button beside the error icon when the DOM input is not empty, and
   * the active field's clear button whenever its bound value is not empty.
   */
  function SelectAffordances(meta: Option<Meta>, domValue: string, inputValue: Option<string>): (a: Affordances)
    requires meta.Some? && meta.value.active ==> inputValue.Some?
    ensures meta.None? ==> a == Affordances(NoIcon, NoClear)
    ensures meta.Some? ==>
              var m := meta.value;
              && (a.icon == Spinner <==> m.asyncValidating && !m.active)
              && (a.icon == ValidIcon <==> m.touched && !m.active && m.valid && !m.asyncValidating)
              && (a.icon == ErrorIcon <==> m.touched && !m.active && !m.valid && !m.asyncValidating)
              && (a.clear == ClearOnClick <==> m.touched && !m.active && !m.valid && !m.asyncValidating && domValue != "")
              && (a.clear == ClearOnMouseDown <==> m.active && inputValue.value != "")
  {
    if meta.None? then Affordances(NoIcon, NoClear)
    else
      var m := meta.value;
      var validation := if m.asyncValidating && !m.active then Spinner else NoIcon;
      var validation := if m.touched && !m.active && m.valid && !m.asyncValidating then ValidIcon else validation;
      var (validation, clearField) :=
        if m.touched && !m.active && !m.valid && !m.asyncValidating then
          (ErrorIcon, if domValue == "" then NoClear else ClearOnClick)
        else (validation, NoClear);
      var clearField := if m.active && inputValue.value != "" then ClearOnMouseDown else clearField;
      Affordances(validation, clearField)
  }

  /** The end-control group: the clear button unless read-only, the validation icon, and the `endControl` if any. */
  datatype EndControls = EndControls(clear: ClearButton, icon: ValidationIcon, endControl: bool)

  function EndControlGroup(p: FieldProps, domValue: string, endControl: bool): (g: EndControls)
    requires RenderDefined(p)
    ensures g.icon == SelectAffordances(p.meta, domValue, p.input).icon && g.endControl == endControl
    ensures g.clear != NoClear <==> !p.readOnly && SelectAffordances(p.meta, domValue, p.input).clear != NoClear
    ensures g.clear != NoClear ==> g.clear == SelectAffordances(p.meta, domValue, p.input).clear
  {
    var a := SelectAffordances(p.meta, domValue, p.input);
    EndControls(if p.readOnly then NoClear else a.clear, a.icon, endControl)
  }

  /** `readOnly` removes the clear button and leaves the validation icon and the `endControl` as they are. */
  lemma ReadOnlySuppressesOnlyClear(p: FieldProps, domValue: string, endControl: bool)
    requires RenderDefined(p)
    ensures var readOnly := EndControlGroup(p.(readOnly := true), domValue, endControl);
            var editable := EndControlGroup(p.(readOnly := false), domValue, endControl);
            && readOnly.clear == NoClear
            && readOnly.icon == editable.icon
            && readOnly.endControl == editable.endControl == endControl
            && editable.clear == SelectAffordances(p.meta, domValue, p.input).clear
  {
  }

  // ---------------------------------------------------------------------------
  // Warning and error text

  datatype Messages = Messages(warning: Option<string>, error: Option<string>)

  /**
   * The warning and error text `render` shows: taken from `meta` only when the
   * `input` binding is given, and shown only for a touched field with a
   * non-empty message.
   */
  function FieldMessages(p: FieldProps): (r: Messages)
    requires RenderDefined(p)
    ensures r.warning.Some? <==> p.input.Some? && p.meta.value.touched && p.meta.value.warning != ""
    ensures r.error.Some? <==> p.input.Some? && p.meta.value.touched && p.meta.value.error != ""
    ensures r.warning.Some? ==> r.warning.value == p.meta.value.warning
    ensures r.error.Some? ==> r.error.value == p.meta.value.error
  {
    var (error, warning, touched) :=
      if p.input.Some? then (p.meta.value.error, p.meta.value.warning, p.meta.value.touched) else ("", "", false);
    if p.meta.Some? then
      Messages(if touched && warning != "" then Some(warning) else None,
               if touched && error != "" then Some(error) else None)
    else Messages(None, None)
  }
}
