/**
 * The upload hook (hooks/useImageUpload.ts): an `uploading` flag and an `error` cell around
 * one call to the image gateway, whose outcome is an input.
 */
module ImageUpload {
  import opened Wrappers
  import opened Js
  import opened Http
  import ImageService

  const ServerMessage: string := "Error del servidor al subir la imagen."

  const UnauthorizedMessage: string := "No autorizado para subir " + "imágenes (token inválido)."

  const FallbackMessage: string := "Error al subir la imagen."

  /** `status && status >= 500` on `err?.status`: a missing status never counts as a server fault. */
  function IsServerFault(e: Error): (b: bool)
    ensures b <==> e.status.Some? && e.status.value >= 500
  {
    e.status.Some? && e.status.value != 0 && e.status.value >= 500
  }

  /** `status === 401 || status === 403`, a class disjoint from the server faults. */
  function IsUnauthorized(e: Error): (b: bool)
    ensures b ==> e.status.Some? && !IsServerFault(e)
  {
    e.status == Some(401) || e.status == Some(403)
  }

  /** The message the hook shows for a failed upload. */
  function UploadErrorMessage(e: Error): (m: string)
    ensures m != ""
    ensures IsServerFault(e) ==> m == ServerMessage
    ensures IsUnauthorized(e) ==> m == UnauthorizedMessage
    ensures !IsServerFault(e) && !IsUnauthorized(e) && e.message != "" ==> m == e.message
    ensures !IsServerFault(e) && !IsUnauthorized(e) && e.message == "" ==> m == FallbackMessage
  {
    if IsServerFault(e) then ServerMessage
    else if IsUnauthorized(e) then UnauthorizedMessage
    else if e.message != "" then e.message
    else FallbackMessage
  }

  /**
   * What the hook shows for each failure of the image gateway: a server fault or a refused
   * token gets the hook's own message, anything else the gateway's message, including the
   * missing-URL failure, which has no status.
   */
  lemma GatewayFailureMessages(response: Response<Reply<ImageService.UploadBody>>, parsed: Option<ImageService.ErrorJson>)
    requires ImageService.UploadImage(response, parsed).Thrown?
    ensures var e := ImageService.UploadImage(response, parsed).error;
      && (!IsOk(response.status) && response.status >= 500 ==> UploadErrorMessage(e) == ServerMessage)
      && (response.status == 401 || response.status == 403 ==> UploadErrorMessage(e) == UnauthorizedMessage)
      && (!IsOk(response.status) && response.status != 401 && response.status != 403 && response.status < 500
          ==> UploadErrorMessage(e) == e.message)
      && (IsOk(response.status) && response.json.Ok? ==> UploadErrorMessage(e) == ImageService.NoUrlMessage)
      && (IsOk(response.status) && response.json.Thrown? ==> e == response.json.error)
  {
    var e := ImageService.UploadImage(response, parsed).error;
    if !IsOk(response.status) {
      assert e.message == ImageService.UploadFailureMessage(response.text, parsed);
      assert e.message != "" by {
        assert ImageService.DefaultMessage != "" && ImageService.QuotePrefix != "";
      }
    } else if response.json.Ok? {
      assert e == Plain(ImageService.NoUrlMessage);
    }
  }

  class UploadState {
    var uploading: bool
    var error: Option<string>

    constructor ()
      ensures !uploading && error.None?
    {
      uploading := false;
      error := None;
    }

    /**
     * `uploadImage`: sets `uploading` and clears `error`, awaits the gateway, and on failure
     * records the message and rethrows the same error; `uploading` is false afterwards.
     */
    method UploadImage(reply: Reply<Value>) returns (r: Reply<Value>)
      modifies this
      ensures r == reply
      ensures !uploading
      ensures reply.Ok? ==> error.None?
      ensures reply.Thrown? ==> error == Some(UploadErrorMessage(reply.error))
    {
      uploading := true;
      error := None;
      match reply {
        case Ok(url) =>
          r := Ok(url);
        case Thrown(e) =>
          error := Some(UploadErrorMessage(e));
          r := Thrown(e);
      }
      uploading := false;
    }
  }
}
