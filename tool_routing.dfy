/**
 * The MCP gateway Lambda: the gateway prefixes each tool name with its target
 * name and a `___` delimiter; the handler strips that prefix and routes on the
 * bare tool name.
 */
module ToolRouting {
  import opened Wrappers
  import opened Strings

  const Delimiter: string := "___"
  const OrderTool: string := "get_order_tool"
  const OrderStatusBody: string := "Order Id 123 is in shipped status"
  const UpdatedBody: string := "Updated the order details successfully"

  datatype Response = Response(statusCode: int, body: string)

  /** The tool name after the delimiter handling of the handler. */
  function StripPrefix(toolName: string): (r: string)
    ensures !Contains(toolName, Delimiter) ==> r == toolName
    ensures Contains(toolName, Delimiter) ==>
      exists i: nat :: OccursAt(toolName, Delimiter, i)
        && (forall j: nat :: j < i ==> !OccursAt(toolName, Delimiter, j))
        && r == toolName[i + |Delimiter|..]
  {
    match Find(toolName, Delimiter)
    case None => toolName
    case Some(i) => toolName[i + |Delimiter|..]
  }

  /** `lambda_handler`, given the tool name taken from the gateway's client context. */
  function LambdaHandler(toolName: string): (r: Response)
    ensures r.statusCode == 200
    ensures r.body == OrderStatusBody <==> StripPrefix(toolName) == OrderTool
    ensures r.body == UpdatedBody <==> StripPrefix(toolName) != OrderTool
  {
    var name := StripPrefix(toolName);
    if name == OrderTool then Response(200, OrderStatusBody)
    else Response(200, UpdatedBody)
  }

  /**
   * A name of the gateway's form `target___tool` routes on `tool`, provided
   * the delimiter does not already start inside `target` (checked by looking
   * at `target` followed by two of the delimiter's underscores).
   */
  lemma StripGatewayName(target: string, tool: string)
    requires !Contains(target + "__", Delimiter)
    ensures StripPrefix(target + Delimiter + tool) == tool
  {
    var s := target + Delimiter + tool;
    assert s[|target|..|target| + 3] == Delimiter;
    assert OccursAt(s, Delimiter, |target|);
    var i := Find(s, Delimiter).value;
    if i < |target| {
      assert s[i..i + 3] == (target + "__")[i..i + 3];
      assert OccursAt(target + "__", Delimiter, i);
      assert false;
    }
    assert s[|target| + 3..] == tool;
  }

  /** Only the first occurrence is stripped: `a___b___c` becomes `b___c`. */
  lemma StripsFirstOccurrenceOnly()
    ensures StripPrefix("a___b___c") == "b___c"
  {
    assert "a" + "__" == "a__";
    assert ("a__")[0..3] != Delimiter by { assert ("a__")[0..3][0] == 'a'; }
    assert FindFrom("a__", Delimiter, 1) == None;
    assert "a" + Delimiter + "b___c" == "a___b___c";
    StripGatewayName("a", "b___c");
  }

  /** Stripping leaves a suffix of the name, shorter by at least the delimiter when one occurs. */
  lemma StripYieldsSuffix(toolName: string)
    ensures |StripPrefix(toolName)| <= |toolName|
    ensures StripPrefix(toolName) == toolName[|toolName| - |StripPrefix(toolName)|..]
    ensures Contains(toolName, Delimiter) ==> |StripPrefix(toolName)| + |Delimiter| <= |toolName|
  {
  }

  /** The gateway-qualified name of the order tool reaches the order-status branch. */
  lemma QualifiedOrderTool(target: string)
    requires !Contains(target + "__", Delimiter)
    ensures LambdaHandler(target + Delimiter + OrderTool) == Response(200, OrderStatusBody)
  {
    StripGatewayName(target, OrderTool);
  }
}
