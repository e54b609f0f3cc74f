/**
 * The freehand signature widget (`SignatureCanvas`) as the handlers see it at
 * the moment they run: whether the drawing area is empty (`isEmpty()`), and
 * the data URL its trimmed canvas would produce
 * (`getTrimmedCanvas().toDataURL('image/png')`). The drawing itself, the
 * trimming and the PNG encoding are not part of this model.
 */
module Canvas {

  datatype SignaturePad = SignaturePad(empty: bool, dataUrl: string)
}
