/** The dialog that collects a new test case from two uploaded text files. */
module AddTestDialog {
  import opened Common
  import Judge

  /** A test case handed to the dialog's `onAdd` callback. */
  datatype NewTestCase = NewTestCase(id: string, input: string, expectedOutput: string)

  datatype Notice = SuccessNotice(message: string) | ErrorNotice(message: string)

  /** Which file an upload control fills. */
  datatype FileKind = InputFile | ExpectedOutputFile

  /** `(new Date()).getMilliseconds().toString()`: the millisecond part of the clock, in
      decimal; `clockMs` is the clock in milliseconds. */
  function MillisecondId(clockMs: nat): (id: string)
    ensures 1 <= |id| <= 3
    ensures id == Judge.NatToString(clockMs % 1000)
  {
    ShortDecimal(clockMs % 1000);
    Judge.NatToString(clockMs % 1000)
  }

  /** A number below 1000 has at most three decimal digits. */
  lemma ShortDecimal(n: nat)
    requires n < 1000
    ensures |Judge.NatToString(n)| <= 3
  {
    if n >= 10 {
      assert |Judge.NatToString(n / 10)| <= 2 by {
        if n / 10 >= 10 {
          assert Judge.NatToString(n / 10) == Judge.NatToString(n / 100) + [Judge.DigitChar(n / 10 % 10)];
        }
      }
    }
  }

  /** What `handleSubmit` hands over: nothing unless both files have content. */
  function Accepted(input: string, expectedOutput: string, clockMs: nat): (r: Option<NewTestCase>)
    ensures r.Some? <==> input != "" && expectedOutput != ""
    ensures r.Some? ==> r.value.input == input && r.value.expectedOutput == expectedOutput
    ensures r.Some? ==> r.value.id == MillisecondId(clockMs)
  {
    if input == "" || expectedOutput == "" then None
    else Some(NewTestCase(MillisecondId(clockMs), input, expectedOutput))
  }

  /** Two submissions whose clocks differ by whole seconds get the same id. */
  lemma IdsRepeatEverySecond(clockMs: nat, seconds: nat)
    ensures MillisecondId(clockMs + 1000 * seconds) == MillisecondId(clockMs)
  {
    assert (clockMs + 1000 * seconds) % 1000 == clockMs % 1000;
  }

  class Dialog {
    var input: string
    var expectedOutput: string
    var open: bool
    /** The test cases passed to `onAdd`, oldest first. */
    var added: seq<NewTestCase>
    var notices: seq<Notice>

    constructor ()
      ensures input == "" && expectedOutput == "" && !open && added == [] && notices == []
    {
      input := "";
      expectedOutput := "";
      open := false;
      added := [];
      notices := [];
    }

    /** The dialog's trigger and its close control. */
    method SetOpen(b: bool)
      modifies this
      ensures open == b
      ensures input == old(input) && expectedOutput == old(expectedOutput)
      ensures added == old(added) && notices == old(notices)
    {
      open := b;
    }

    /** `handleFileUpload(kind)`: `content` is the text of the chosen file, None when no file
        was chosen. Only the field of that kind changes. */
    method FileUpload(kind: FileKind, content: Option<string>)
      modifies this
      ensures content.Some? && kind == InputFile ==> input == content.value && expectedOutput == old(expectedOutput)
      ensures content.Some? && kind == ExpectedOutputFile ==> expectedOutput == content.value && input == old(input)
      ensures content.None? ==> input == old(input) && expectedOutput == old(expectedOutput)
      ensures open == old(open) && added == old(added) && notices == old(notices)
    {
      if content.Some? {
        if kind == InputFile {
          input := content.value;
        } else {
          expectedOutput := content.value;
        }
      }
    }

    /** The clear button beside a loaded file. */
    method Clear(kind: FileKind)
      modifies this
      ensures kind == InputFile ==> input == "" && expectedOutput == old(expectedOutput)
      ensures kind == ExpectedOutputFile ==> expectedOutput == "" && input == old(input)
      ensures open == old(open) && added == old(added) && notices == old(notices)
    {
      if kind == InputFile {
        input := "";
      } else {
        expectedOutput := "";
      }
    }

    /** `handleSubmit` at clock `clockMs`: with a missing file it only shows an error;
        otherwise the test case goes to `onAdd` once, the fields are cleared and the dialog
        closes. */
    method HandleSubmit(clockMs: nat)
      modifies this
      ensures Accepted(old(input), old(expectedOutput), clockMs).None? ==>
        && input == old(input) && expectedOutput == old(expectedOutput) && open == old(open)
        && added == old(added)
        && notices == old(notices) + [ErrorNotice("Both input and output files are required")]
      ensures Accepted(old(input), old(expectedOutput), clockMs).Some? ==>
        && added == old(added) + [Accepted(old(input), old(expectedOutput), clockMs).value]
        && input == "" && expectedOutput == "" && !open
        && notices == old(notices) + [SuccessNotice("Test case added successfully")]
    {
      if input == "" || expectedOutput == "" {
        notices := notices + [ErrorNotice("Both input and output files are required")];
        return;
      }
      added := added + [NewTestCase(MillisecondId(clockMs), input, expectedOutput)];
      input := "";
      expectedOutput := "";
      open := false;
      notices := notices + [SuccessNotice("Test case added successfully")];
    }

    /** The Cancel button: both fields cleared, the dialog closed, nothing added. */
    method Cancel()
      modifies this
      ensures input == "" && expectedOutput == "" && !open
      ensures added == old(added) && notices == old(notices)
    {
      input := "";
      expectedOutput := "";
      open := false;
    }
  }
}
