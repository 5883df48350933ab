/** The WhatsApp export upload form: a `.zip` file is picked, then sent to
    the ingestion service while the form shows that an upload is running. */
module WhatsappUpload {
  import opened Common
  import Strings

  /** A file picked in the file input; only its name matters here. */
  datatype FileRef = FileRef(name: string)

  const InvalidFileMessage := "Arquivo Inválido. Por favor, selecione um arquivo .zip."
  const NotReadyMessage := "Nenhum arquivo selecionado ou usuário não autenticado."
  const UploadFailedMessage := "Falha ao enviar o arquivo."
  const ClientErrorPrefix := "Erro no cliente: "
  const UnknownErrorMessage := "Ocorreu um erro desconhecido."

  /** `name.toLowerCase().endsWith('.zip')`. */
  predicate IsZipName(name: string)
    ensures IsZipName(name) ==> |name| >= |".zip"|
  {
    Strings.EndsWith(Strings.ToLower(name), ".zip")
  }

  /** The check ignores letter case: an upper-case extension is accepted. */
  lemma UpperCaseZipAccepted()
    ensures IsZipName("FOO.ZIP")
    ensures !IsZipName("foo.rar")
  {
    assert Strings.ToLower("FOO.ZIP") == "foo.zip";
    assert Strings.ToLower("foo.rar")[3..] == ".rar";
  }

  /** Any name whose last four characters are `.zip` up to case passes. */
  lemma {:induction false} ZipSuffixAccepted(base: string, ext: string)
    requires |ext| == 4 && Strings.ToLower(ext) == ".zip"
    ensures IsZipName(base + ext)
  {
    var n := base + ext;
    Strings.ToLowerSuffix(n, |base|);
    assert n[|base|..] == ext;
  }

  /** How a failed upload ended: the server answered with an error (its
      `detail`, if any), the client raised an `Error` before or without a
      response, or something else was thrown. */
  datatype UploadError = ResponseError(detail: Option<string>) | ClientError(message: string) | OtherError

  /** The error toast's text: the server's detail first, then the client
      error's message, then the generic text. */
  function UploadErrorMessage(e: UploadError): (m: string)
    ensures e.ResponseError? ==> m == OrElse(e.detail, UploadFailedMessage)
    ensures e.ClientError? ==> |m| >= |ClientErrorPrefix| && m[..|ClientErrorPrefix|] == ClientErrorPrefix
                               && m[|ClientErrorPrefix|..] == e.message
    ensures e.OtherError? ==> m == UnknownErrorMessage
    ensures m != ""
  {
    match e
    case ResponseError(detail) => OrElse(detail, UploadFailedMessage)
    case ClientError(message) => ClientErrorPrefix + message
    case OtherError => UnknownErrorMessage
  }

  /** The success toast's text. */
  function UploadedMessage(name: string): string
  {
    "O arquivo \"" + name + "\" foi enviado e está sendo processado."
  }

  /** The form's state. `Valid`: an upload only runs with a file picked. */
  class WhatsappUploadForm {
    var file: Option<FileRef>
    var isUploading: bool

    predicate Valid()
      reads this
    {
      isUploading ==> file.Some?
    }

    constructor ()
      ensures Valid()
      ensures file == None && !isUploading
    {
      file := None;
      isUploading := false;
    }

    /** The submit button is disabled without a file and during an upload. */
    predicate SubmitDisabled()
      reads this
    {
      file.None? || isUploading
    }

    /** `handleFileChange` (the input is disabled while uploading): nothing
        happens without a file list; otherwise only the first file counts,
        kept when its name ends in `.zip`, and dropped with an error toast
        when it does not or when the list is empty. */
    method FileChange(files: Option<seq<FileRef>>) returns (toast: Option<Toast>)
      modifies this
      requires Valid() && !isUploading
      ensures Valid() && !isUploading
      ensures files.None? ==> file == old(file) && toast.None?
      ensures files.Some? && |files.value| > 0 && IsZipName(files.value[0].name) ==>
                file == Some(files.value[0]) && toast.None?
      ensures files.Some? && (|files.value| == 0 || !IsZipName(files.value[0].name)) ==>
                file.None? && toast == Some(ErrorToast(InvalidFileMessage))
    {
      toast := None;
      if files.Some? {
        if |files.value| > 0 && IsZipName(files.value[0].name) {
          file := Some(files.value[0]);
        } else {
          file := None;
          toast := Some(ErrorToast(InvalidFileMessage));
        }
      }
    }

    /** `handleSubmit` up to the request (the button is disabled during an
        upload): without a file, a loaded profile or a signed-in account it
        shows an error and changes nothing; otherwise the upload starts. */
    method HandleSubmit(hasProfile: bool, hasAccount: bool) returns (toast: Option<Toast>, started: bool)
      modifies this
      requires Valid() && !isUploading
      ensures Valid()
      ensures started <==> file.Some? && hasProfile && hasAccount
      ensures !started ==> toast == Some(ErrorToast(NotReadyMessage)) && !isUploading && file == old(file)
      ensures started ==> toast.None? && isUploading && file == old(file)
    {
      if file.None? || !hasProfile || !hasAccount {
        toast := Some(ErrorToast(NotReadyMessage));
        started := false;
      } else {
        isUploading := true;
        toast := None;
        started := true;
      }
    }

    /** The rest of `handleSubmit` once the request settles: `isUploading`
        goes back to false either way; success clears the file and names it
        in the toast, failure keeps it and reports the error. */
    method UploadFinished(result: Option<UploadError>) returns (toast: Toast)
      modifies this
      requires Valid() && isUploading
      ensures Valid() && !isUploading
      ensures result.None? ==> file.None? && toast == SuccessToast(UploadedMessage(old(file).value.name))
      ensures result.Some? ==> file == old(file) && toast == ErrorToast(UploadErrorMessage(result.value))
    {
      if result.None? {
        toast := SuccessToast(UploadedMessage(file.value.name));
        file := None;
      } else {
        toast := ErrorToast(UploadErrorMessage(result.value));
      }
      isUploading := false;
    }
  }
}
