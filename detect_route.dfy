/** The object-detection handler `POST` (app/api/ai/detect/route.ts): it
    checks the token and the uploaded image, and passes the detections of the
    model on, field for field. The form and the model call are parameters. */
module DetectRoute {
  import opened Text
  import H = HfErrors

  const NoImageMessage: string := "No image provided"
  const DefaultMessage: string := "Detection failed. Please try again."

  /** The message of the `TypeError` thrown when the `image` field holds
      text, which has no `arrayBuffer` method (the V8 wording). */
  const NotAFileMessage: string := "imageFile.arrayBuffer is not a function"

  /** The value of the `image` form field. */
  datatype ImageField = Absent | TextValue(text: string) | FileValue(mimeType: string, bytes: seq<int>)

  /** The request form: unreadable (with the error's message), or read. */
  datatype Form = Unreadable(message: Option<string>) | Read(image: ImageField)

  datatype Box = Box(xmin: real, ymin: real, xmax: real, ymax: real)

  /** One item the model returns; `extra` stands for any field the handler
      does not copy. */
  datatype Item = Item(name: string, score: real, box: Box, extra: map<string, string>)

  /** One element of `detections`. */
  datatype Detection = Detection(name: string, score: real, box: Box)

  datatype ModelCall = Threw(message: Option<string>) | Returned(items: seq<Item>)

  datatype Reply = Failure(error: H.ErrorReply) | Detected(detections: seq<Detection>)

  /** `!imageFile`: no field, or an empty text. */
  predicate NoImage(field: ImageField)
  {
    field.Absent? || (field.TextValue? && field.text == "")
  }

  /** `results.map(...)` (route.ts:37-46): each item becomes a detection
      with its label, its score and its four box coordinates. */
  function ToDetections(items: seq<Item>): (ds: seq<Detection>)
    ensures |ds| == |items|
    ensures forall i :: 0 <= i < |items| ==>
      ds[i].name == items[i].name && ds[i].score == items[i].score && ds[i].box == items[i].box
  {
    if items == [] then []
    else [Detection(items[0].name, items[0].score, items[0].box)] + ToDetections(items[1..])
  }

  /** route.ts:6-59. */
  function Post(token: Option<string>, form: Form, model: ModelCall): (r: Reply)
    ensures r.Detected? ==>
      && !H.TokenMissing(token) && form.Read? && form.image.FileValue?
      && model.Returned? && r.detections == ToDetections(model.items)
  {
    if H.TokenMissing(token) then Failure(H.MissingToken)
    else match form
      case Unreadable(message) => Failure(H.Classify(message, DefaultMessage))
      case Read(image) =>
        if NoImage(image) then Failure(H.ErrorReply(400, NoImageMessage, false))
        else if image.TextValue? then Failure(H.Classify(Some(NotAFileMessage), DefaultMessage))
        else match model
          case Threw(message) => Failure(H.Classify(message, DefaultMessage))
          case Returned(items) => Detected(ToDetections(items))
  }

  /** Nothing is filtered or added: the detections are the items with the
      uncopied fields dropped, and mapping two runs of items maps each. */
  lemma {:induction false} ToDetectionsAppend(a: seq<Item>, b: seq<Item>)
    ensures ToDetections(a + b) == ToDetections(a) + ToDetections(b)
  {
    if a != [] {
      assert (a + b)[1..] == a[1..] + b;
      ToDetectionsAppend(a[1..], b);
    } else {
      assert a + b == b;
    }
  }

  /** Two items differing only in fields the handler does not copy give
      the same detection; a low score is passed on like any other. */
  lemma ExtraFieldsDropped(it: Item, extra: map<string, string>)
    ensures ToDetections([it]) == ToDetections([it.(extra := extra)])
    ensures ToDetections([it])[0].score == it.score
  {
  }

  /** Without a token nothing else is looked at. */
  lemma MissingTokenFirst(token: Option<string>, form: Form, model: ModelCall)
    requires H.TokenMissing(token)
    ensures Post(token, form, model) == Failure(H.MissingToken)
  {
  }

  /** With a token, a readable form without an image is answered 400 before
      the model is called, whatever the model would have done. */
  lemma NoImageIs400(token: string, image: ImageField, model1: ModelCall, model2: ModelCall)
    requires token != "" && NoImage(image)
    ensures Post(Some(token), Read(image), model1) == Failure(H.ErrorReply(400, NoImageMessage, false))
    ensures Post(Some(token), Read(image), model1) == Post(Some(token), Read(image), model2)
  {
  }

  /** Whatever is thrown inside the `try` (route.ts:49-58) is classified
      with this handler's default text: a form that cannot be read, an
      `image` field holding text, and a failed model call. */
  lemma ModelErrors(token: string, mimeType: string, bytes: seq<int>, text: string,
                    message: Option<string>, model: ModelCall)
    requires token != "" && text != ""
    ensures Post(Some(token), Read(FileValue(mimeType, bytes)), Threw(message))
            == Failure(H.Classify(message, DefaultMessage))
    ensures Post(Some(token), Unreadable(message), model) == Failure(H.Classify(message, DefaultMessage))
    ensures Post(Some(token), Read(TextValue(text)), model)
            == Failure(H.Classify(Some(NotAFileMessage), DefaultMessage))
  {
  }

  /** With a token, the reply is a list of detections exactly when the
      form holds a file and the model returned, and the list is then the
      model's items, mapped one for one. */
  lemma DetectedIff(token: Option<string>, form: Form, model: ModelCall)
    requires !H.TokenMissing(token)
    ensures Post(token, form, model).Detected? <==> form.Read? && form.image.FileValue? && model.Returned?
    ensures Post(token, form, model).Detected? ==> Post(token, form, model) == Detected(ToDetections(model.items))
  {
  }
}
