/**
 * The language-model endpoint both RAG pipelines and the vector stores call
 * (core/nexusmind/llm/llm_endpoint.py). The provider is outside the model:
 * its embedding and chat-completion answers are functions supplied with the
 * endpoint. Both already include the endpoint's error handling, so an
 * embedding may be empty and a completion may be "".
 */
module Endpoint {

  type Vector = seq<real>

  /** A chat message `{"role": ..., "content": ...}`. */
  datatype Message = Message(role: string, content: string)

  datatype LLMEndpoint = LLMEndpoint(
    modelName: string,
    temperature: real,
    maxTokens: int,
    /** `get_embedding(text)`: the vector, or [] when the provider call failed. */
    embedding: string -> Vector,
    /** `get_chat_completion(messages)`: the reply text, or "" when the call failed or returned nothing. */
    chatCompletion: seq<Message> -> string)
}
