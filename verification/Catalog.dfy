/** Certificates, automation tasks and deployment targets: the rows the jobs refer to. */
module Catalog {
  import opened Rows

  datatype CertStatus = Pending | Issuing | Issued | Renewing | IssueFailed

  datatype Cert = Cert(status: CertStatus, current: Option<Id>, renewBefore: Time, deleted: bool)

  datatype Version = Version(certificate: Id, notAfter: Time)

  datatype Action = RenewCertificate | UploadSsl | DeployAlb

  datatype Task = Task(
    certificate: Id, action: Action, credential: Option<Id>, interval: Time,
    enabled: bool, deleted: bool, nextRunAt: Time)

  /** PRIMARY KEY (automation_task_id, deployment_target_id). */
  datatype LinkKey = LinkKey(task: Id, target: Id)
  datatype Link = Link(position: nat, enabled: bool)

  datatype Target = Target(active: bool, deleted: bool)

  datatype Deployment = Deployment(certificate: Id, target: Id, enabled: bool, autoDeploy: bool)
}
