/**
 * The static column schema of every Glue table the registrar knows
 * (`table_column_schemas` in lambdas/create-partition/index.py). Each table's
 * schema is an ordered list of (name, Hive type) pairs; the mapping never changes.
 */
module Schemas {

  /** One Glue column: `{"Name": name, "Type": columnType}`. */
  datatype Column = Column(name: string, columnType: string)

  /** Columns of `repository_state_change` (index.py lines 10-87). */
  const RepositoryStateChangeColumns: seq<Column> := [
    Column("timestamp", "string"),
    Column("eventVersion", "string"),
    Column("repositoryArn", "string"),
    Column("event", "string"),
    Column("baseCommitId", "string"),
    Column("callerUserArn", "string"),
    Column("commitId", "string"),
    Column("conflictDetailLevel", "string"),
    Column("conflictResolutionStrategy", "string"),
    Column("destinationCommitId", "string"),
    Column("mergeOption", "string"),
    Column("oldCommitId", "string"),
    Column("referenceFullName", "string"),
    Column("referenceName", "string"),
    Column("referenceType", "string"),
    Column("repositoryId", "string"),
    Column("repositoryName", "string"),
    Column("sourceCommitId", "string"),
    Column("conflictDetailsLevel", "string")
  ]

  /** Columns of `pull_request_state_change` (index.py lines 88-181). */
  const PullRequestStateChangeColumns: seq<Column> := [
    Column("timestamp", "string"),
    Column("eventVersion", "string"),
    Column("repositoryArn", "string"),
    Column("event", "string"),
    Column("approvalStatus", "string"),
    Column("author", "string"),
    Column("callerUserArn", "string"),
    Column("creationDate", "string"),
    Column("description", "string"),
    Column("destinationCommit", "string"),
    Column("destinationReference", "string"),
    Column("isMerged", "string"),
    Column("lastModifiedDate", "string"),
    Column("mergeOption", "string"),
    Column("notificationBody", "string"),
    Column("overrideStatus", "string"),
    Column("pullRequestId", "string"),
    Column("pullRequestStatus", "string"),
    Column("repositoryNames", "array<string>"),
    Column("revisionId", "string"),
    Column("sourceCommit", "string"),
    Column("sourceReference", "string"),
    Column("title", "string")
  ]

  /** Columns of `approval_rule_template_change` (index.py lines 182-227). */
  const ApprovalRuleTemplateChangeColumns: seq<Column> := [
    Column("timestamp", "string"),
    Column("eventVersion", "string"),
    Column("event", "string"),
    Column("repositories", "map<string,string>"),
    Column("approvalRuleTemplateContentSha256", "string"),
    Column("approvalRuleTemplateId", "string"),
    Column("approvalRuleTemplateName", "string"),
    Column("callerUserArn", "string"),
    Column("creationDate", "string"),
    Column("lastModifiedDate", "string"),
    Column("notificationBody", "string")
  ]

  /** Columns of `comment_on_commit` (index.py lines 228-277). */
  const CommentOnCommitColumns: seq<Column> := [
    Column("timestamp", "string"),
    Column("eventVersion", "string"),
    Column("event", "string"),
    Column("repositoryArn", "string"),
    Column("beforeCommitId", "string"),
    Column("repositoryId", "string"),
    Column("inReplyTo", "string"),
    Column("notificationBody", "string"),
    Column("commentId", "string"),
    Column("afterCommitId", "string"),
    Column("repositoryName", "string"),
    Column("callerUserArn", "string")
  ]

  /** Columns of `comment_on_pull_request` (index.py lines 278-327). */
  const CommentOnPullRequestColumns: seq<Column> := [
    Column("timestamp", "string"),
    Column("eventVersion", "string"),
    Column("event", "string"),
    Column("beforeCommitId", "string"),
    Column("repositoryId", "string"),
    Column("inReplyTo", "string"),
    Column("notificationBody", "string"),
    Column("commentId", "string"),
    Column("afterCommitId", "string"),
    Column("repositoryName", "string"),
    Column("callerUserArn", "string"),
    Column("pullRequestId", "string")
  ]

  /** The schema table, keyed by table name. */
  const TableColumnSchemas: map<string, seq<Column>> := map[
    "repository_state_change" := RepositoryStateChangeColumns,
    "pull_request_state_change" := PullRequestStateChangeColumns,
    "approval_rule_template_change" := ApprovalRuleTemplateChangeColumns,
    "comment_on_commit" := CommentOnCommitColumns,
    "comment_on_pull_request" := CommentOnPullRequestColumns
  ]

  /** The table has exactly the five known keys, with 19, 23, 11, 12 and 12 columns. */
  lemma SchemaTableShape()
    ensures TableColumnSchemas.Keys ==
      {"repository_state_change", "pull_request_state_change", "approval_rule_template_change",
       "comment_on_commit", "comment_on_pull_request"}
    ensures |TableColumnSchemas| == 5
    ensures |TableColumnSchemas["repository_state_change"]| == 19
    ensures |TableColumnSchemas["pull_request_state_change"]| == 23
    ensures |TableColumnSchemas["approval_rule_template_change"]| == 11
    ensures |TableColumnSchemas["comment_on_commit"]| == 12
    ensures |TableColumnSchemas["comment_on_pull_request"]| == 12
  {
  }
}
