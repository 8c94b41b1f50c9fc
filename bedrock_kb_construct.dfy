/**
 * The knowledge-base construct: a Bedrock knowledge base over an OpenSearch Serverless
 * collection, and the custom-resource function that creates the vector index it needs. The two
 * must agree on the index and field names, and the index dimension must match the embedding
 * model.
 */
module KnowledgeBaseConstruct {
  import opened Strings

  const COLLECTION_NAME := "Underwriting-Manual-Knowledge-Base"
  const VECTOR_INDEX_NAME := "bedrock-knowledge-base-default-index"
  const VECTOR_FIELD_NAME := "bedrock-knowledge-base-default-vector"
  const TEXT_FIELD := "AMAZON_BEDROCK_TEXT_CHUNK"
  const METADATA_FIELD := "AMAZON_BEDROCK_METADATA"
  const STORAGE_CONFIGURATION_TYPE := "OPENSEARCH_SERVERLESS"
  const DATA_SOURCE_TYPE := "S3"
  const DATA_PLANE_ACTION := "aoss:APIAccessAll"

  /** What the construct reads of its props: the collection appears through its ARN and endpoint. */
  datatype KnowledgeBaseProps = KnowledgeBaseProps(
    embeddingsModelArn: string,
    collectionArn: string,
    collectionEndpoint: string,
    bucketArn: string)

  datatype FieldMapping = FieldMapping(metadataField: string, textField: string, vectorField: string)

  /** The storage and data-source settings handed to `BedrockKnowledgeBase`. */
  datatype KnowledgeBaseConfig = KnowledgeBaseConfig(
    name: string,
    embeddingModelArn: string,
    collectionArn: string,
    fieldMapping: FieldMapping,
    vectorIndexName: string,
    storageType: string,
    dataSourceBucketArn: string,
    dataSourceType: string)

  datatype PolicyStatement = PolicyStatement(actions: seq<string>, resources: seq<string>)

  /**
   * The identifiers Bedrock assigns to the knowledge base and its data source once it exists;
   * the construct does not choose them.
   */
  datatype AssignedIds = AssignedIds(knowledgeBaseId: string, dataSourceId: string)

  datatype KnowledgeBase = KnowledgeBase(
    dataPlanePolicy: PolicyStatement,
    knowledgeBase: KnowledgeBaseConfig,
    customResourceEnvironment: map<string, string>,
    knowledgeBaseId: string,
    dataSourceId: string)

  /**
   * The vector size the index is created with: 1024 for a Cohere embedding model, 1536
   * otherwise.
   */
  function Dimension(embeddingsModelArn: string): (d: string)
    ensures d == "1024" <==> Contains(embeddingsModelArn, "cohere")
    ensures d == "1536" <==> !Contains(embeddingsModelArn, "cohere")
  {
    if Contains(embeddingsModelArn, "cohere") then "1024" else "1536"
  }

  /** The environment of the custom-resource function that creates the index. */
  function CustomResourceEnvironment(props: KnowledgeBaseProps): map<string, string>
  {
    map[
      "COLLECTION_ENDPOINT" := props.collectionEndpoint,
      "VECTOR_FIELD_NAME" := VECTOR_FIELD_NAME,
      "VECTOR_INDEX_NAME" := VECTOR_INDEX_NAME,
      "TEXT_FIELD" := TEXT_FIELD,
      "METADATA_FIELD" := METADATA_FIELD,
      "DIMENSION" := Dimension(props.embeddingsModelArn)]
  }

  /** The construct: its policy, the knowledge base, the index-creating function and the exposed ids. */
  function Build(props: KnowledgeBaseProps, ids: AssignedIds): KnowledgeBase
  {
    KnowledgeBase(
      PolicyStatement([DATA_PLANE_ACTION], [props.collectionArn]),
      KnowledgeBaseConfig(
        COLLECTION_NAME, props.embeddingsModelArn, props.collectionArn,
        FieldMapping(METADATA_FIELD, TEXT_FIELD, VECTOR_FIELD_NAME), VECTOR_INDEX_NAME,
        STORAGE_CONFIGURATION_TYPE, props.bucketArn, DATA_SOURCE_TYPE),
      CustomResourceEnvironment(props),
      ids.knowledgeBaseId,
      ids.dataSourceId)
  }

  /**
   * The index the custom resource creates is the one the knowledge base writes to: same index
   * name, same vector, text and metadata fields, in the collection the knowledge base uses, and
   * sized for its embedding model.
   */
  lemma IndexMatchesKnowledgeBase(props: KnowledgeBaseProps, ids: AssignedIds)
    ensures var kb := Build(props, ids);
      && kb.customResourceEnvironment.Keys
           == {"COLLECTION_ENDPOINT", "VECTOR_FIELD_NAME", "VECTOR_INDEX_NAME", "TEXT_FIELD", "METADATA_FIELD", "DIMENSION"}
      && kb.customResourceEnvironment["VECTOR_INDEX_NAME"] == kb.knowledgeBase.vectorIndexName
      && kb.customResourceEnvironment["VECTOR_FIELD_NAME"] == kb.knowledgeBase.fieldMapping.vectorField
      && kb.customResourceEnvironment["TEXT_FIELD"] == kb.knowledgeBase.fieldMapping.textField
      && kb.customResourceEnvironment["METADATA_FIELD"] == kb.knowledgeBase.fieldMapping.metadataField
      && kb.customResourceEnvironment["COLLECTION_ENDPOINT"] == props.collectionEndpoint
      && kb.knowledgeBase.collectionArn == props.collectionArn
      && kb.customResourceEnvironment["DIMENSION"] == Dimension(kb.knowledgeBase.embeddingModelArn)
  {
  }

  /** The three field names are distinct, so no two roles share an index field. */
  lemma FieldsDistinct(props: KnowledgeBaseProps, ids: AssignedIds)
    ensures var m := Build(props, ids).knowledgeBase.fieldMapping;
      m.metadataField != m.textField && m.textField != m.vectorField && m.metadataField != m.vectorField
  {
  }

  /** The knowledge-base role may use the data plane of its own collection and nothing else. */
  lemma DataPlanePolicy(props: KnowledgeBaseProps, ids: AssignedIds)
    ensures Build(props, ids).dataPlanePolicy.actions == [DATA_PLANE_ACTION]
    ensures Build(props, ids).dataPlanePolicy.resources == [Build(props, ids).knowledgeBase.collectionArn]
  {
  }

  /** The construct exposes the identifiers Bedrock assigned to the knowledge base it created. */
  lemma ExposedIds(props: KnowledgeBaseProps, ids: AssignedIds)
    ensures Build(props, ids).knowledgeBaseId == ids.knowledgeBaseId
    ensures Build(props, ids).dataSourceId == ids.dataSourceId
  {
  }
}
