/** The LangChain message kinds the Python agent passes around; only the class and
    the text content matter to the modelled code. */
module Messages {

  datatype Message =
    | HumanMessage(content: string)
    | AIMessage(content: string)
    | SystemMessage(content: string)
    | ToolMessage(content: string)
}
