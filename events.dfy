/** The API Gateway proxy response a webhook handler returns. The JSON body a
    handler marshals is kept as the payload value it was marshalled from. */
module Events {

  datatype Body<+P> = Raw(text: string) | Json(payload: P)

  datatype ProxyResponse<+P> = ProxyResponse(statusCode: int, headers: map<string, string>, body: Body<P>)

  /** The header set on every JSON reply. */
  const JsonHeaders: map<string, string> := map["Content-Type" := "application/json"]
}
