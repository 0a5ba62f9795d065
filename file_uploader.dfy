/**
 * The drop zone (app/components/FileUploader.tsx). The selected file is the
 * parent page's state, passed in as the `file` prop and changed through
 * `onFileChange`; here the uploader object holds it and the upload page reads
 * it from there.
 */
module FileUploader {
  import opened Wrappers
  import opened Records

  const TooLargeMessage: string := "Arquivo muito grande. O máximo é 20 MB."
  const InvalidTypeMessage: string := "Tipo de arquivo inválido. " + "Apenas PDFs são aceitos."
  const GenericMessage: string := "Erro ao carregar o arquivo."

  const TooLargeCode: string := "file-too-large"
  const InvalidTypeCode: string := "file-invalid-type"

  /** One reason the drop zone gave for refusing a file. */
  datatype DropError = DropError(code: string, message: string)

  datatype FileRejection = FileRejection(file: File, errors: seq<DropError>)

  /** The largest accepted file: 20 MB. */
  function MaxFileSize(): (bytes: nat)
    ensures bytes == 20971520
  {
    20 * 1024 * 1024
  }

  /** The message shown for the code of the first error of the first rejection. */
  function RejectionMessage(code: string): (message: string)
    ensures message == TooLargeMessage <==> code == TooLargeCode
    ensures message == InvalidTypeMessage <==> code == InvalidTypeCode
    ensures message == GenericMessage <==> code != TooLargeCode && code != InvalidTypeCode
  {
    assert TooLargeMessage[0] == 'A';
    assert InvalidTypeMessage[0] == 'T';
    assert GenericMessage[0] == 'E';
    if code == TooLargeCode then TooLargeMessage
    else if code == InvalidTypeCode then InvalidTypeMessage
    else GenericMessage
  }

  /** A file is held, so the drop zone takes no more drops. */
  predicate DropzoneDisabled(file: Option<File>)
  {
    file.Some?
  }

  /** What one drop leaves behind: the error shown and the file selected. */
  datatype DropResult = DropResult(error: Option<string>, selected: Option<File>)

  /**
   * Any rejection wins over accepted files: its first error decides the
   * message and nothing is selected. Without rejections the first accepted
   * file, if any, is selected and no error is shown.
   */
  function DropOutcome(accepted: seq<File>, rejections: seq<FileRejection>): (r: DropResult)
    requires |rejections| > 0 ==> |rejections[0].errors| > 0
    ensures |rejections| > 0 ==> r.selected.None? && r.error == Some(RejectionMessage(rejections[0].errors[0].code))
    ensures |rejections| == 0 ==> r.error.None?
    ensures |rejections| == 0 && |accepted| > 0 ==> r.selected == Some(accepted[0])
    ensures |rejections| == 0 && |accepted| == 0 ==> r.selected.None?
  {
    if |rejections| > 0 then
      DropResult(Some(RejectionMessage(rejections[0].errors[0].code)), None)
    else
      DropResult(None, if |accepted| > 0 then Some(accepted[0]) else None)
  }

  class Uploader {
    /** The message under the drop zone. */
    var error: Option<string>
    /** The selected file (the parent's `file` state). */
    var file: Option<File>
    /** Every value `setError` was called with, in order. */
    ghost var errorWrites: seq<Option<string>>

    constructor ()
      ensures error.None? && file.None? && errorWrites == []
    {
      error := None;
      file := None;
      errorWrites := [];
    }

    /** `onFileChange`: the parent stores the new selection. */
    method OnFileChange(f: Option<File>)
      modifies this`file
      ensures file == f
    {
      file := f;
    }

    /**
     * `onDrop`: clear the error, then either report a rejection or select a
     * file. The drop zone is disabled while a file is held, so a drop only
     * arrives when none is.
     */
    method OnDrop(accepted: seq<File>, rejections: seq<FileRejection>)
      requires !DropzoneDisabled(file)
      requires |rejections| > 0 ==> |rejections[0].errors| > 0
      modifies this
      ensures error == DropOutcome(accepted, rejections).error
      ensures file == DropOutcome(accepted, rejections).selected
      ensures errorWrites == old(errorWrites) + [None] + (if |rejections| > 0 then [error] else [])
    {
      error := None;
      errorWrites := errorWrites + [None];
      if |rejections| > 0 {
        var firstError := rejections[0].errors[0];
        error := Some(RejectionMessage(firstError.code));
        errorWrites := errorWrites + [error];
        OnFileChange(None);
        return;
      }
      OnFileChange(if |accepted| > 0 then Some(accepted[0]) else None);
    }

    /** `handleRemoveFile`: drop the selection and nothing else. */
    method RemoveFile()
      modifies this`file
      ensures file.None?
    {
      OnFileChange(None);
    }
  }
}
