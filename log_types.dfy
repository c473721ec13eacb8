/** The enumerations and settings the pipeline shares: the classifier's
    vocabulary (service, error type and subtype, severity), the API's service
    status and log level, and the processing limits from the settings object. */
module LogTypes {

  datatype Option<T> = None | Some(value: T)

  /** Services known to the rule-based classifier. */
  datatype Service = Auth | ApiGateway | User | Payment | Notification | Inventory

  function ServiceValue(s: Service): string {
    match s
    case Auth => "auth-service"
    case ApiGateway => "api-gateway"
    case User => "user-service"
    case Payment => "payment-service"
    case Notification => "notification-service"
    case Inventory => "inventory-service"
  }

  datatype ErrorType =
    | ApplicationException | InfrastructureError | NetworkError | DatabaseError
    | SecurityAlert | ResourceExhaustion | DeploymentIssue | TimeoutError
    | BusinessLogicError | PaymentError | CommunicationError | UnknownError

  function ErrorTypeValue(t: ErrorType): string {
    match t
    case ApplicationException => "Application Exception"
    case InfrastructureError => "Infrastructure Error"
    case NetworkError => "Network Error"
    case DatabaseError => "Database Error"
    case SecurityAlert => "Security Alert"
    case ResourceExhaustion => "Resource Exhaustion"
    case DeploymentIssue => "Deployment Issue"
    case TimeoutError => "Timeout"
    case BusinessLogicError => "Business Logic Error"
    case PaymentError => "Payment Error"
    case CommunicationError => "Communication Error"
    case UnknownError => "Unknown"
  }

  datatype ErrorSubtype =
    | StackTrace | NullPointer | ConnectionRefused | TimeoutSub | OomKilled
    | DbConnFailed | AuthFailure | RateLimitHit | ConfigMismatch | SslHandshakeError
    | PermissionDenied | ServiceUnavailable | Conflict | Suspension | Chargeback
    | Http4xx | Http5xx | SmtpError | UnknownSub

  function SubtypeValue(t: ErrorSubtype): string {
    match t
    case StackTrace => "Stack Trace"
    case NullPointer => "Null Pointer Exception"
    case ConnectionRefused => "Connection Refused"
    case TimeoutSub => "Timeout"
    case OomKilled => "Out of Memory (OOMKilled)"
    case DbConnFailed => "Database Connection Failed"
    case AuthFailure => "Authentication Failure"
    case RateLimitHit => "Rate Limit Hit"
    case ConfigMismatch => "Configuration Mismatch"
    case SslHandshakeError => "SSL Handshake Error"
    case PermissionDenied => "Permission Denied"
    case ServiceUnavailable => "Service Unavailable"
    case Conflict => "Conflict"
    case Suspension => "Account Suspension"
    case Chargeback => "Chargeback"
    case Http4xx => "HTTP 4XX Error"
    case Http5xx => "HTTP 5XX Error"
    case SmtpError => "SMTP Error"
    case UnknownSub => "Unknown"
  }

  datatype SeverityLevel = High | Medium | Low

  function SeverityValue(s: SeverityLevel): string {
    match s
    case High => "High"
    case Medium => "Medium"
    case Low => "Low"
  }

  /** Health status of a service as the API reports it. */
  datatype ServiceStatus = Healthy | Warning | Critical | Unknown

  function StatusValue(s: ServiceStatus): string {
    match s
    case Healthy => "healthy"
    case Warning => "warning"
    case Critical => "critical"
    case Unknown => "unknown"
  }

  datatype LogLevel = Debug | Info | Warn | Error | Fatal

  /** Processing settings (their defaults; the environment can override them). */
  const LOG_PROCESSING_INTERVAL: nat := 30
  const MAX_LOG_BATCH_SIZE: nat := 1000
  const WEBSOCKET_KEEPALIVE_INTERVAL: nat := 30
}
